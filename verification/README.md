# Ostracon node, verified model

A Dafny model of the safety-critical parts of the Ostracon BFT node, and proofs about
them. `dafny verify dfyconfig.toml` checks the whole project.

Hashes, signatures, VRF proofs, protobuf encodings, CRC-32C and voter selection are
uninterpreted functions. Time, heights and rounds are unbounded integers; where an
integer width matters (16-bit peer ids, 32-bit frame lengths, the 32-bit evidence
counter) it is written out.

## What is modelled

- **Voting and locking** (`Quorum`, `VoteSets`, `RoundStates`, `NodeInvariant`, `NodeSteps`,
  `Agreement`, `Validation`, `ConsensusState`). One node is a round/step machine, given once as pure
  transition functions on a `RoundState` value and once as a class whose methods update
  their fields in place. Every method makes the transition of its function; of a node
  that keeps the invariant (`Sound`) the step and handler methods also say what they do to
  its lock, its votes and its decisions. A system is any number of correct nodes and a log
  of signed votes: votes may be delayed, lost, repeated and reordered, and addresses
  without a correct node may cast any votes. The agreement theorem covers every run, all
  heights and changing voter sets; so does the theorem that correct nodes vote for, lock and
  finalize only what they have validated. What a node does about each kind of input is
  stated in both directions.
- **Nodes that start again** (`Replays`, `Starts`, `Restarts`, `Runs`, `Disagreement`,
  `Forgotten`). The same system with nodes that die at any time, also between storing a
  block and marking the end of its height in the log, and with nodes that fetch blocks from
  others. A start begins after the stored blocks, with the last commit read back from the
  store, and replays what was flushed since the end of the height below, if that end is
  marked. When this gives back the state of then is made exact. Agreement is proved for all
  runs in which no start loses what votes rest on; one run that does lose it ends with two
  blocks at one height.
- **Crash recovery** (`Recovery`). A process dies after any number of durable writes, in
  normal operation or while it recovers, any number of times; the application may come
  back with an older state of its own. The handshake brings block store, state and
  application back to the values of an uninterrupted run, in which every block passes
  through the application transaction by transaction.
- **Sparse state history** (`SparseHistory`, `StateStore`). Validator sets stored where
  they change and every 100000 heights agree with a history kept in full, through saving,
  bootstrapping, batched pruning and rollback. The history follows from the blocks' headers
  and the application's answers alone.
- **Light client** (`LightVerifier`, `LightClient`). Verification of headers, bisection
  with its cache, sequential verification, and the replacement of providers. Requests are
  numbered, and answers and their order of arrival are arbitrary functions of that number.
- **Signer** (`Signer`). The file-backed private validator under any requests, crashes and
  restarts.
- **State sync** (`SnapshotPool`, `SnapshotKey`, `ChunkQueue`). The pool's maps, the text a
  snapshot's key is made from, the chunk queue and the restore loop, with other goroutines
  adding and fetching chunks between any two locked sections.
- **Mempool** (`Mempool`, `TxCache`, `PeerIDs`). Every access to shared data is a step of
  its own and the steps of all calls interleave in any order.
- **Evidence pool** (`EvidencePool`) and **write-ahead log** (`WAL`).

## What turned out not to hold

- *Restarts.* consensus/state.go:2293-2297 flushes the log before signing so that the same
  vote can be computed again, and lines 1687-1691 rely on the handshake for a death between
  storing a block and marking the end of its height. The handshake restores the
  application, but without that end nothing of the next height is replayed
  (consensus/replay.go:130-136), and the node starts anyway (consensus/state.go:381-383).
  `Restarts.StartGivesBack` and `Restarts.RestartForgetsNothing` say exactly when a start
  restores the state and the requests for votes. `Disagreement.MarkerForgotten` is a run in
  which a node dies twice and forgets a lock although all its inputs were flushed, and
  `Disagreement.AgreementLost` carries it on to two correct nodes that finalize different
  blocks at one height, with less than a third of the weight faulty.
- *Replays.* Two kinds of input are handled and never written: news of transactions
  (consensus/state.go:805-806) and peers' claims of majorities (consensus/reactor.go:276-285).
  News shows exactly when it is awaited (`Starts.NewsShows`), claims exactly as
  `Replays.ClaimMatters` says. `Forgotten.LockForgotten` is a run that loses a lock this way,
  `Forgotten.NewsForgotten` and `Forgotten.ClaimForgotten` are the general cases. And with
  `skip_timeout_commit` a round can begin before the end of the height below is marked, of
  which a replay knows nothing: `Starts.BlockGivesBack` has the exact condition,
  `Forgotten.EarlyVoteForgotten` the votes lost. `Restarts.AgreementWithRestarts` proves
  agreement for all runs without these three (`Harmless`) and in which every start finds its
  marker unless no vote was asked for since (`HarmlessStart`).
- *Late precommits.* A precommit for the height below the first one stops a node that
  waits for its first round, on a last commit that is not there:
  `NodeInvariant.MissingLastCommit` gives the exact condition,
  `NodeInvariant.MissingLastCommitHappens` an instance for every chain.
- *Handshake.* A chain that starts above height 1 cannot recover from a crash between
  storing its first block and saving its first state: `Recovery.HandshakeCovers` gives
  the exact heights, `Recovery.FirstBlockAboveOne` a run. And a genesis file with an
  application hash that InitChain does not return keeps any node with an empty store from
  starting: `Recovery.Node.ReplayBlocks` has the exact condition (`Recoverable`),
  `Recovery.GenesisHashOnly` a run.
- *Rollback.* state/rollback.go:112-114 notes that saving the rolled back state rewrites
  validators with the same data. It rewrites the entry of height n + 1 with a new change height,
  and that entry can stop loading: `SparseHistory.RollbackRewrite` gives the exact
  condition, `SparseHistory.RollbackLosesNextSet` an instance.
- *Snapshot keys.* The comment at statesync/snapshots.go:27-29 says all fields must be
  equal for two snapshots to share a key. Nothing separates the number of chunks, the
  hash and the metadata: `SnapshotKey.SameKey` gives the exact condition,
  `SnapshotKey.KeyRunsTogether` two instances.
- *Evidence.* Evidence that a block commits between its verification and its addition to
  the pool is pending and committed at once, and is then accepted in a second block:
  `EvidencePool.CommittedTwice` is such a run. `EvidencePool.Pool.CheckOne` says exactly
  which committed evidence passes, `EvidencePool.Pool.Live` that over all runs only
  evidence raced in this way is ever pending again or committed twice.
- *Expired evidence.* evidence/pool.go:98-104 says that applying a block removes any expired
  evidence. It does when the height and time noted by the last prune are past
  (`EvidencePool.Pool.Update`); these come from the oldest piece that was pending then, and
  older evidence added later can expire before: `EvidencePool.ExpiredLeft` is a run.
- *Mempool reservations.* A call whose application connection fails keeps its
  reservation. `Mempool.LeakHappens` is a run that ends at rest with an empty list and one
  place gone, `Mempool.LeakedCounts` and `Mempool.Quiescent` count what is lost, and
  `Mempool.NoRoomLeft` shows that as many failures as there are places close the mempool.
- *Search in the log.* Without growing markers a height in the log can be missed:
  `WAL.SearchExact` gives the exact condition, `WAL.SearchMisses` an instance.

## Model

| member | source | states |
|---|---|---|
| Quorum.QuorumWeightMeaning | types/vote_set.go:313 | the integer test "more than total*2/3" used for majorities is the exact inequality 3w > 2*total |
| Quorum.QuorumsIntersect | types/vote_set.go:263-334 | two sets of voters above two thirds share a voter outside any set below one third |
| Quorum.WeightOverlap | types/vote_set.go:263-334 | weights of two overlapping sets exceed the total by at most the weight of the overlap |
| VoteSets.CountVoteOK | types/vote_set.go:697-704 | a per-block tally stays the exact weight of its voters when a voter is added, and unchanged when repeated |
| VoteSets.AddVerifiedSum | types/vote_set.go:263-334 | the running sum is the weight of everybody who voted, also when a voter votes again for another block |
| VoteSets.AddVerifiedVoteOK | types/vote_set.go:263-334 | sum, per-block tallies and the recorded majority stay consistent: a majority is recorded as soon as, and only if, a block has more than two thirds, and its voters stay listed with it |
| VoteSets.AddVoteToSetOK | types/vote_set.go:180-248 | adding any vote keeps the set consistent and never replaces a recorded majority |
| VoteSets.VoteTaken | types/vote_set.go:180-334 | a vote counts iff it is its voter's first, or for a block with a claimed majority and neither counted nor listed already; a first vote is the one its voter is listed with |
| VoteSets.VoteCounted | types/vote_set.go:263-334 | it counts for its own block and no other, and changes no claim |
| VoteSets.OthersListed | types/vote_set.go:263-334 | every other voter stays listed as before, unless the vote makes the first majority: then all who count for its block are listed with it |
| VoteSets.TalliesMean | types/vote_set.go:459-475 | +2/3 of any votes iff two thirds of the weight have voted; all votes iff nobody of any weight is missing |
| VoteSets.SetPeerMaj23OK | types/vote_set.go:341-374 | a peer's claim of a majority changes no tally and no recorded majority |
| VoteSets.MajorityIsTwoThirdsAny | types/vote_set.go:459-466 | a recorded majority implies that more than two thirds voted for something |
| VoteSets.TrackRounds | consensus/types/height_vote_set.go:86-113 | opening rounds adds exactly the missing ones, empty, and leaves existing sets alone |
| VoteSets.RoundsTracked | consensus/types/height_vote_set.go:86-105 | entering a round tracks every round from the one before the present one up to it, and loses no vote |
| VoteSets.POLRound | consensus/types/height_vote_set.go:153-164 | the one returned has a prevote majority, and no round up to the tracked one that has one is later |
| VoteSets.NewHeightVoteSetOK | consensus/types/height_vote_set.go:52-71 | a fresh height starts with consistent sets that hold no votes |
| VoteSets.AddVoteOK | consensus/types/height_vote_set.go:117-137 | a vote of any round, also from a peer running ahead, keeps all sets of the height consistent and all majorities |
| VoteSets.VoteAdded | consensus/types/height_vote_set.go:117-137 | a vote goes to the set of its type and round and no other, iff the round is tracked or its peer has an extra round left, which it then uses up |
| VoteSets.ClaimKept | consensus/types/height_vote_set.go:185-200 | a peer's first claim for a tracked round is kept and makes exactly its block claimed; later ones change nothing |
| VoteSets.AddVoteFrom | consensus/types/height_vote_set.go:117-137 | counted votes stay among the votes really cast, under their own type, height and round |
| VoteSets.ClaimMaj23OK | consensus/types/height_vote_set.go:185-200 | majority claims from peers never fabricate or drop a majority |
| NodeInvariant.InitOK | consensus/state.go:628-734 | a node starts in a state that satisfies the invariant |
| NodeInvariant.PrevoteJustified | consensus/state.go:1309-1343 | a prevote against an earlier precommit of the same height is cast only after a polka for something else in between |
| NodeInvariant.EnterPrevoteOK | consensus/state.go:1282-1343 | prevoting keeps the invariant and the order of signed votes; exactly when a vote is signed; it is for the locked block and its parts if there is one, and else for a block iff there is a proposal block that validates, with its hash and parts |
| NodeInvariant.EnterPrevoteWaitOK | consensus/state.go:1346-1374 | with +2/3 prevotes of any kind the guarding panic does not fire, and nothing but step and timeouts changes |
| NodeInvariant.UnlockOK | consensus/state.go:2183-2199 | giving up a lock on a later polka for something else keeps every earlier precommit guarded |
| NodeInvariant.LockOK | consensus/state.go:1450-1483 | locking or relocking the polka's block and precommitting it keeps the lock rule |
| NodeInvariant.PrecommitNilOK | consensus/state.go:1407-1446 | precommitting nil keeps the lock rule |
| NodeInvariant.PrecommitBlockOK | consensus/state.go:1450-1504 | every way of answering a polka for a block, including not having the block, keeps the invariant |
| NodeInvariant.EnterPrecommitOK | consensus/state.go:1382-1504 | all branches of precommitting keep the invariant; exactly when a vote is signed; it is for a block iff there is a polka for it and it is locked or proposed, and the node is then locked on it with its parts; else nil, without lock if there was a polka, awaiting the polka's block; it panics iff the block is proposed, not locked, and does not validate; the panic on a too low polka round does not fire |
| NodeInvariant.EnterPrecommitWaitOK | consensus/state.go:1507-1536 | with +2/3 precommits of any kind the guarding panic does not fire, and nothing but timeouts and the wait flag changes |
| NodeInvariant.EnterProposeOK | consensus/state.go:1104-1164 | proposing keeps the invariant, does not leave the round and schedules its timeout; the node prevotes at once iff the proposal is here with its block and the polka it names, and rightly |
| NodeInvariant.StartRoundOK | consensus/state.go:1026-1083 | starting a round tracks exactly the rounds needed, loses no vote and cannot panic in SetRound |
| NodeInvariant.EnterNewRoundOK | consensus/state.go:1026-1083 | entering a round keeps the invariant and the lock, cannot panic, reaches at least that round and keeps all votes |
| NodeInvariant.CommitStepOK | consensus/state.go:1539-1599 | entering the commit step with +2/3 precommits for a block keeps the invariant |
| NodeInvariant.EnterCommitOK | consensus/state.go:1539-1599 | committing, with or without the block at hand, keeps the invariant and reaches the commit step, the next height or a stop; the panic on a missing majority does not fire |
| NodeInvariant.TryFinalizeCommitOK | consensus/state.go:1602-1627 | in the commit step the node moves on iff the block of the commit round is here, complete, valid and can be applied |
| NodeInvariant.FinalizeCommitOK | consensus/state.go:1630-1767 | a finalized block had +2/3 precommits of the commit round, and the node moves to the next height |
| NodeInvariant.NewHeightOK | consensus/state.go:628-734 | the next height starts unlocked, with fresh vote sets and the voter set that the finalized blocks determine |
| NodeInvariant.AddLastCommitVoteOK | consensus/state.go:2120-2152 | late precommits for the previous height do not disturb the current one |
| NodeInvariant.ValidBlockOK | consensus/state.go:2201-2217 | the valid block is always one with a polka in its round |
| NodeInvariant.OnPolkaOK | consensus/state.go:2175-2229 | a polka unlocks iff it is later than the lock, not ahead of the round and for something else; the proposal block becomes the valid one iff the first polka of the round is for it, and is given up iff it is for another |
| NodeInvariant.OnPrevoteOK | consensus/state.go:2172-2250 | whatever a prevote triggers keeps the invariant; +2/3 prevotes of a later round move the node there |
| NodeInvariant.OnPrecommitOK | consensus/state.go:2252-2280 | whatever a precommit triggers, up to finalizing and starting the next height, keeps the invariant; +2/3 for a block lead to the commit step, the next height or a stop |
| NodeInvariant.HandleVoteOK | consensus/state.go:2112-2285 | handling any vote that was cast keeps the invariant |
| NodeInvariant.HandleProposalOK | consensus/state.go:1919-1962 | handling any proposal keeps the invariant |
| NodeInvariant.HandleCompleteProposalOK | consensus/state.go:2028-2061 | a completed proposal block keeps the invariant; in the commit step it is finalized iff it is the committed one, valid and can be applied |
| NodeInvariant.HandleBlockPartOK | consensus/state.go:1967-2026 | block parts keep the invariant |
| NodeInvariant.HandleTimeoutOK | consensus/state.go:941-989 | a timeout that was scheduled, or one of round 0 left over from before a start, keeps the invariant; stale ones do nothing |
| NodeInvariant.HandleTxsAvailableOK | consensus/state.go:991-1014 | transactions becoming available keep the invariant |
| NodeInvariant.HandleOK | consensus/state.go:762-1014 | any input keeps the invariant; height, round and step do not go back and history only grows |
| NodeInvariant.MissingLastCommit | consensus/state.go:2121-2130 | a vote stops a node over a missing last commit iff it is a precommit for the height below the first one and the node waits for its first round, whoever signed it |
| NodeInvariant.MissingLastCommitHappens | consensus/state.go:2121-2130 | it happens on every chain |
| NodeSteps.NewRoundEntered | consensus/state.go:1026-1083 | exactly when a round is entered; without the proposal of an earlier one; exactly when the node then waits for transactions, votes at once, or waits for the proposal, and with which timeout |
| NodeSteps.PrevoteWaitEntered | consensus/state.go:1346-1374 | the wait for more prevotes is entered once per round, with its timeout |
| NodeSteps.PrecommitWaitEntered | consensus/state.go:1507-1536 | the wait for more precommits is entered once per round, with its timeout |
| NodeSteps.FinalizeTried | consensus/state.go:1602-1767 | in the commit step: exactly which block is finalized and when, when the node stops, and what the next height starts with |
| NodeSteps.CommitEntered | consensus/state.go:1539-1599 | what becomes of +2/3 precommits for a block: finalized iff it is at hand with its parts, validates and can be applied; a stop iff it is at hand with other parts or does not validate; else awaited |
| NodeSteps.LateVoteKept | consensus/state.go:2120-2152 | a late precommit of the right round joins the last commit while the node waits; the wait ends iff configured so and everybody has voted |
| NodeSteps.ProposalTaken | consensus/state.go:1919-1962 | a proposal is taken iff it is the first one of the node's height and round and names no round from its own on |
| NodeSteps.BlockComplete | consensus/state.go:2028-2061 | a complete block becomes valid iff the round has a first polka for it; the node prevotes iff it can now, and answers the polka of the round; in the commit step it finalizes iff this is the block |
| NodeSteps.PrevoteAhead | consensus/state.go:2231-2235 | +2/3 prevotes of a later round take the node there, fewer do not |
| NodeSteps.PrevoteNow | consensus/state.go:2236-2243 | after its own prevote: a polka for nil or one that leaves the proposal leads to the precommit, other +2/3 to the wait, fewer to nothing |
| NodeSteps.PrevoteBefore | consensus/state.go:2244-2249 | before its own prevote: prevotes of the round that a complete proposal names let the node vote, others do not |
| NodeSteps.PrecommitMoves | consensus/state.go:2252-2280 | +2/3 precommits for nil lead to a precommit and the wait in their round, +2/3 of any kind to the wait, fewer or past ones to nothing |
| NodeSteps.TimeoutMoves | consensus/state.go:941-989 | a timeout that is not stale takes the node past the step it waits in, a stale one does nothing |
| NodeSteps.NewsMoves | consensus/state.go:991-1014 | news of transactions ends the wait for them, or schedules its end, or does nothing, exactly when |
| Agreement.RunOK | consensus/state.go:762-1014 | the invariant holds at every point of every run, and every logged vote of a correct node was asked for on votes logged before it |
| Agreement.ReachableNode | consensus/state.go:628-734 | in every reachable state: locked iff locked round >= 0; locked and valid rounds at most the current round and backed by polkas; no timeout beyond the current round; the commit step has +2/3 precommits for a block; the quorum panics (lines 675, 1357, 1425, 1519, 1565) have not fired |
| Agreement.NeverGoesBack | consensus/state.go:2441-2458 | between any two points of a run height, round and step do not decrease and signed votes and decisions are not taken back |
| Agreement.NoEquivocation | consensus/state.go:2288-2370 | a correct node never releases two different votes of one type for one height and round |
| Agreement.NoOtherPolka | consensus/state.go:1309-1504 | after +2/3 precommits for a block no later round of the height has a polka for anything else |
| Agreement.OneBlockPerHeight | consensus/state.go:1539-1599 | two blocks with +2/3 precommits at one height have the same hash |
| Agreement.SamePrefix | consensus/state.go:1630-1767 | correct nodes finalized the same hashes at all heights they share, although voter sets depend on the blocks |
| Agreement.AgreementTheorem | consensus/state.go:1630-1767 | agreement: in every run with faulty weight below a third, no two correct nodes finalize different blocks at one height |
| Validation.HandleBacked | consensus/state.go:762-1014 | whatever a node receives, it votes for, locks and finalizes only blocks it had locked before at that height, or that ValidateBlock accepts now in a round up to the vote's |
| Validation.AllValidated | consensus/state.go:1309-1343 | over every run, all a correct node has signed for, locked or finalized it had validated before, at that height and in no later round |
| Validation.OnlyValidated | consensus/state.go:1309-1343 | over every run, every vote for a block that a correct node has released is for a block it had validated by then |
| Replays.BareHandle | consensus/state.go:850-989 | handling a written input and taking out what claims left in the vote sets commute, unless the input is a vote that counts only by a claim |
| Replays.BareHandleClaim | consensus/reactor.go:276-285 | a claim leaves nothing else behind |
| Replays.ClaimMatters | types/vote_set.go:263-334 | claims change whether a vote is taken iff it is a voter's second vote, for a block somebody claimed |
| Replays.BareAddVote | consensus/types/height_vote_set.go:117-137 | all other votes are taken alike with and without the claims |
| Starts.LateAlike | consensus/state.go:2120-2152 | a late precommit shows nowhere but in the last commit, and stops the node if there is none, unless it cuts the wait for the next height short |
| Starts.AlikeHandle | consensus/state.go:850-989 | states that differ in votes of the last commit and timeouts of round 0 only stay so under every written input |
| Starts.NewsShows | consensus/state.go:991-1014 | news of transactions makes a difference iff the node waits for it in its first round; before that it only schedules a timeout |
| Starts.WrittenStep | consensus/state.go:850-989 | a written input that is not lost on a replay does the same with and without the claims |
| Starts.UnwrittenStep | consensus/state.go:805-806 | leaving out an input that is never written makes no difference unless it is awaited news |
| Starts.CommitTaken | types/block.go:904-935 | reading back the commit stored with a block, no vote of it is turned down, and exactly its votes are counted, each for what it says |
| Starts.CommitLists | types/vote_set.go:642-671 | the commit read back lists exactly those who were listed with the block or with nil, as they were |
| Starts.CommitRestored | types/vote_set.go:642-671 | what MakeCommit keeps of a vote set with a majority has that majority again when it is read back |
| Starts.LastCommitFound | consensus/state.go:610-625 | the panics of reconstructLastCommit over a finalized block do not fire |
| Starts.FreshOK | consensus/state.go:610-734 | the state a start begins with keeps the invariant, with its last commit found |
| Starts.AheadOK | consensus/reactor.go:115-136 | so does the state of a start that finds one more block in the store, its own or one fetched from others |
| Starts.BareNodeOK | consensus/reactor.go:276-285 | taking out what claims left in its vote sets, of now and of its history, keeps the invariant of a node |
| Starts.FinalizingRests | consensus/state.go:2252-2280 | an input that finalizes a block leaves the node at rest at the next height, unless all voters precommitted and the wait is skipped, when it has left that rest |
| Starts.BlockGivesBack | consensus/state.go:2252-2280 | a start right after a finalized block gives back the state of then iff the wait was not skipped |
| Restarts.Replayed | consensus/replay.go:93-163 | replaying the written inputs of a height from its beginning gives the state of then, but for claims, votes of the last commit and timeouts of round 0 |
| Restarts.StartGivesBack | consensus/replay.go:113-163 | a start gives back the state of then iff the end of the height below is marked, or that state is still the one the height began with |
| Restarts.RestartForgetsNothing | consensus/replay.go:93-163 | a start has every vote asked for in flushed inputs iff the end is marked or none was asked for since the height began; it keeps the invariant and all finalized blocks in any case |
| Restarts.LosesUnflushed | consensus/state.go:808-823 | a death may lose an input that is not flushed, and the node starts as if it had never come |
| Restarts.KeepsFlushed | consensus/state.go:2288-2297 | it never loses one that is flushed |
| Restarts.NodeHandles | consensus/state.go:762-849 | an input that does no harm keeps a node restorable, whether it finalizes a block or not |
| Restarts.NodeStartsAhead | consensus/state.go:1669-1702 | a start that finds the block of its height in the store, marked or not, keeps all requests for votes and has one block more; its height is marked iff the end was |
| Restarts.RunOK | consensus/state.go:762-849 | over every run with deaths, starts and fetched blocks, if nothing that matters is lost: each vote of a correct node was asked for in inputs that are flushed, on votes cast before |
| Restarts.AgreementWithRestarts | consensus/state.go:2287-2320 | agreement with any number of restarts, in every run in which no awaited news or vote counting only by a claim comes, no wait between heights is skipped, and each start finds its marker unless no vote was asked for since |
| Disagreement.MarkerForgotten | consensus/state.go:1669-1702 | a run of two deaths, the first between storing a block and marking its end: all inputs flushed, a precommit out, and the lock forgotten |
| Disagreement.AgreementLost | consensus/replay.go:113-136 | a run with faulty weight below a third in which two correct nodes finalize different blocks at one height |
| Forgotten.NewsForgotten | consensus/state.go:991-1014 | with the polka, the block and the proposal in this order, news of transactions leads to a lock and a precommit, and the replay without it to neither |
| Forgotten.ClaimForgotten | types/vote_set.go:288-303 | a second vote that counts after a claim changes nothing in the replay without the claim |
| Forgotten.EarlyVoteForgotten | consensus/types/height_vote_set.go:117-137 | a peer's votes of three later rounds are all taken by a node that has entered its first round, and the replay, which has not, turns the third down |
| Forgotten.PolkaFirstWaits | consensus/state.go:2175-2229 | the order of NewsForgotten occurs at the second height of a chain, where a node may wait for transactions |
| Forgotten.LockForgotten | consensus/replay.go:93-163 | a run that ends locked on a precommitted block of the second height, all inputs flushed and the marker there, and whose replay ends unlocked |
| ConsensusState.State.constructor | consensus/state.go:199-246 | a new node keeps the invariant, whatever votes others have cast |
| ConsensusState.State.TrackUpTo | consensus/types/height_vote_set.go:86-113 | the loop over rounds opens exactly the rounds that SetRound specifies |
| ConsensusState.State.LastPOLRound | consensus/types/height_vote_set.go:153-164 | the downward loop finds the last round with a prevote majority |
| ConsensusState.State.EnterNewRound | consensus/state.go:1026-1083 | of a sound node: no panic, the lock stays, and the round asked for is reached |
| ConsensusState.State.EnterPropose | consensus/state.go:1104-1164 | of a sound node: at most one vote is signed, a prevote: for the locked block, or else for the proposal block iff it validates |
| ConsensusState.State.EnterPrevote | consensus/state.go:1282-1307 | of a sound node: one prevote at most, for the locked block and its parts, or else for the proposal block and its parts iff there is one that validates, or else for nil; nothing else is locked, decided or failed |
| ConsensusState.State.EnterPrevoteWait | consensus/state.go:1346-1374 | of a sound node with +2/3 prevotes: the guarding panic does not fire, and nothing but step and timeouts changes |
| ConsensusState.State.EnterPrecommit | consensus/state.go:1382-1504 | of a sound node in the round: one precommit, for a block iff there is a polka for it and it is locked or proposed, with the lock on it, or nil, without lock if there was a polka; it panics iff the polka's block is proposed and does not validate |
| ConsensusState.State.EnterPrecommitWait | consensus/state.go:1507-1536 | of a sound node with +2/3 precommits: the guarding panic does not fire, and nothing but timeouts and the wait flag changes |
| ConsensusState.State.EnterCommit | consensus/state.go:1539-1599 | of a sound node with +2/3 precommits for a block: it reaches the commit step, the next height or a stop, and finalizes at most that block, valid |
| ConsensusState.State.TryFinalizeCommit | consensus/state.go:1602-1627 | of a sound node in the commit step: the next height is reached iff the block is here, complete, valid and can be applied, and the block finalized is the one with +2/3 precommits |
| ConsensusState.State.SetProposal | consensus/state.go:1919-1962 | of a sound node: any proposal keeps the invariant, and nothing is signed |
| ConsensusState.State.AddProposalBlockPart | consensus/state.go:1967-2026 | of a sound node: any block part keeps the invariant, the position and the history |
| ConsensusState.State.HandleCompleteProposal | consensus/state.go:2028-2061 | of a sound node: in the commit step a completed block is finalized iff it is the committed one and valid |
| ConsensusState.State.AddVoteMessage | consensus/state.go:2112-2285 | of a sound node: any vote cast keeps the invariant; any vote at all stops it over a missing last commit iff it is a precommit for the height below the first one, before the first round |
| ConsensusState.State.AddLastCommitVote | consensus/state.go:2120-2152 | of a sound node: late precommits keep the invariant and do not take it back |
| ConsensusState.State.PolkaSeen | consensus/state.go:2175-2229 | of a sound node: a lock is given up iff the polka is later, up to the current round and for something else; the valid block follows the first polka of the round |
| ConsensusState.State.AddedPrevote | consensus/state.go:2172-2250 | of a sound node: with +2/3 prevotes of a later round that round is reached; the invariant is kept |
| ConsensusState.State.AddedPrecommit | consensus/state.go:2252-2280 | of a sound node: with +2/3 precommits for a block it reaches the commit step, the next height or a stop |
| ConsensusState.State.HandleTimeout | consensus/state.go:941-989 | of a sound node: a timeout that was scheduled or is of round 0 keeps the invariant, the position and the history |
| ConsensusState.State.HandleTxsAvailable | consensus/state.go:991-1014 | of a sound node: news of transactions keeps the invariant and cannot stop it |
| ConsensusState.State.HandleMsg | consensus/state.go:850-939 | the object itself keeps the node invariant and never goes back, whatever it is sent |
| Recovery.HandshakeCovers | consensus/replay.go:344-437 | after any crash the handshake panics exactly when the chain starts above height 1 and died between storing its first block and saving the state; the uncovered case is never reached |
| Recovery.PlanFollows | consensus/replay.go:344-437 | exactly when the handshake follows each plan, whatever heights it finds |
| Recovery.FirstBlockAboveOne | consensus/replay.go:379-385 | a run on any chain that starts above height 1: the process dies after storing the first block, and the next start panics |
| Recovery.GenesisHashOnly | consensus/replay.go:325-331 | a run on any chain with a genesis hash and an application that returns none from InitChain: every start that lives for one write panics |
| Recovery.ExecutesOnce | state/execution.go:339-424 | there is exactly one way through a block: BeginBlock, each transaction on what the earlier ones left and answered by it, EndBlock on what all left |
| Recovery.UninterruptedRun | state/execution.go:162-265 | the uninterrupted run without its functions: InitChain gives the first application and hash, each block is executed on what the one before left, and the state gets the block's height, the application's hash and what the answers make of the rest |
| Recovery.StateAtHeight | state/execution.go:492-567 | the uninterrupted run: state and application after each block, and the application hash validation demands |
| Recovery.MockProxyApp.ExecBlock | consensus/replay_stubs.go:60-92 | running a block against the mock gives back exactly the saved responses |
| Recovery.Node.SaveBlock | consensus/state.go:1669-1690 | the block store gets the next block, or the process dies with everything level |
| Recovery.Node.AppCommit | state/execution.go:273-332 | what becomes durable is what the block's transactions made of the application, one by one; it is given only the block after its own height, and ends with the value of an uninterrupted run |
| Recovery.Node.Deliver | state/execution.go:339-424 | the loop takes the application through BeginBlock, every transaction and EndBlock, and answers each one with the application as the earlier ones left it |
| Recovery.Node.ExecBlock | state/execution.go:339-424 | the responses, transaction by transaction, are those of the uninterrupted run, from the application or from the mock |
| Recovery.Node.ExecCommitBlock | state/execution.go:631-654 | a block that is only replayed is executed and committed by the real application, one durable write |
| Recovery.Node.SaveResponses | state/store.go:424-445 | once saved, the responses of a block are on disk before the application commits it |
| Recovery.Node.ApplyBlock | state/execution.go:162-265 | from a store one block ahead, level afterwards iff the process lives for its three writes, two if the mock answers; if it dies earlier, exactly how far the application got, in a crash state the handshake covers |
| Recovery.Node.FinalizeCommit | consensus/state.go:1669-1725 | one block further with everything level iff the process lives for four writes; else exactly what of block store, application and state it left, which the handshake covers |
| Recovery.Node.FinalizeBlocks | consensus/state.go:1602-1767 | any number of blocks are finalized iff the process lives for four writes each |
| Recovery.Node.InitChain | consensus/replay.go:300-342 | InitChain may be repeated after a crash and leaves the first state of the uninterrupted run, in which an empty hash keeps the one of the genesis file |
| Recovery.Node.ReplayBlockRange | consensus/replay.go:440-501 | replays exactly the blocks the application lacks, loads only stored heights, and its hash checks do not fail |
| Recovery.Node.ReplayBlocks | consensus/replay.go:285-438 | from any crash state the handshake ends with store, state and application level and as in an uninterrupted run if the process lives for the writes it takes; it never fails, and given one write panics iff the state is not recoverable: a chain above height 1 that stored its first block only, or an empty store and a genesis hash that InitChain does not return |
| Recovery.Node.AppFallsBack | consensus/replay.go:285-438 | an application that comes back with an older state of its own is still recoverable |
| Recovery.Node.StartOnce | consensus/replay.go:241-283 | one start on whatever is durable never fails; it ends level with all blocks finalized if what it finds is recoverable and it lives long enough; one that finalizes nothing leaves it recoverable |
| Recovery.Node.Live | consensus/replay.go:241-528 | the same for any number of starts, crashes and blocks finalized in between: no start fails, and none panics on a chain from height 1 whose first hash agrees |
| SparseHistory.SparseEqualsDense | state/store.go:451-492 | every indexed height loads exactly the members in force at it, rotated by 1 to 99999 heights |
| SparseHistory.ParamsEqualDense | state/store.go:677-700 | every indexed height loads the consensus parameters in force at it |
| SparseHistory.FirstVals | state/store.go:589-617 | a set stored at its own change height starts an index |
| SparseHistory.ExtendVals | state/store.go:589-617 | saving the next height, changed or not, at a checkpoint or not, keeps the index in step with the full history |
| SparseHistory.ExtendRotation | state/store.go:451-492 | saving the next height keeps the rotation of the loaded priorities, whether the set is stored or not |
| SparseHistory.FirstParams | state/store.go:726-745 | parameters stored at their own change height start an index |
| SparseHistory.ExtendParams | state/store.go:726-745 | saving the parameters of the next height keeps the index in step |
| SparseHistory.SameCheckpoint | state/store.go:556-559 | heights above one common checkpoint share it |
| SparseHistory.SourcesKept | state/store.go:264-272 | whatever set a height from `to` upward is reconstructed from is itself at or above `to` or among the kept ones |
| SparseHistory.KeptForItself | state/store.go:264-272 | and nothing is kept but what `to` itself comes from and where its set last changed |
| SparseHistory.PruneInvisible | state/store.go:248-378 | if kept sources and everything from `to` upward are untouched, all those heights load the same validators |
| SparseHistory.PruneParamsInvisible | state/store.go:248-378 | the same for consensus parameters |
| SparseHistory.RollbackRewrite | state/rollback.go:68-72 | after a rollback from n, height n + 1 still loads its set iff it is a checkpoint, or the set last changed before n, or the set of n is stored in full and did not change at n + 1; lower heights are unaffected |
| SparseHistory.RollbackParams | state/rollback.go:74-78 | consensus parameters load as before after a rollback, always |
| SparseHistory.RollbackLosesNextSet | state/rollback.go:68-115 | an instance in which height n + 1 no longer loads |
| StateStore.SaveGenesisOK | state/store.go:171-208 | saving a genesis state, over whatever was there, starts a store that agrees with its history |
| StateStore.BootstrapOK | state/store.go:211-238 | so does bootstrapping a state assembled from light blocks |
| StateStore.BootstrapNextOK | state/store.go:211-238 | bootstrapping the following state keeps the heights of the first one loadable |
| StateStore.SaveOK | state/execution.go:492-567 | updating the state by the next block and saving it keeps the store in step with the history that the block's header and answers make; saving cannot be refused |
| StateStore.UpdateGoesThrough | state/execution.go:492-567 | a block updates the state iff its updates and parameters validate and apply and its proof gives a hash; the change heights move exactly with changes |
| StateStore.LoadsHistory | state/store.go:500-554 | every height of the history loads the validators, voters, voter parameters, proof hash and consensus parameters that were used there |
| StateStore.VotersLoad | state/store.go:500-554 | voters load iff the validators do, their parameters are given or stored and the proof hash is stored, and are selected from these |
| StateStore.PrunedOK | state/store.go:248-378 | a prune, however far it got, is not seen at or above its target height |
| StateStore.RunOK | state/store.go:171-378 | over every run of blocks and successive prunes the store agrees, from the last pruned height on, with the history made by the blocks' headers and answers |
| StateStore.ChangeSetApplies | types/validator_set.go:585-635 | a change set is refused iff it has a negative power, removes an absent validator or leaves nobody; else it sets exactly the powers it names, removes those of power 0, and keeps the others |
| StateStore.RunPuts | state/execution.go:492-567 | over every run, each block has put in force its validator changes two heights on, its parameters at the next height, and there the voters selected from the members by its proof; without changes what was before stays |
| StateStore.RunLoads | state/store.go:451-554 | over every run, this is what the loading functions return for the heights of every block that has not been pruned |
| StateStore.RunRotates | state/store.go:451-492 | over every run, the proposer priorities that load move on by one with every height at which the set does not change |
| StateStore.SweepValsOK | state/store.go:284-322 | one step of the sweep touches nothing that must be retained |
| StateStore.SweepParamsOK | state/store.go:324-351 | the same for consensus parameters |
| StateStore.SweepLoads | state/store.go:281-351 | what one step keeps loads directly as it loaded before, the rest of its height is gone, and it fails iff something to keep does not load |
| StateStore.SweepFrame | state/store.go:281-351 | one step settles its own height and no other |
| StateStore.SourcesThere | state/store.go:264-272 | the entries to keep are there whenever no height of the range was pruned before |
| StateStore.StoresApplied | state/validation.go:31-78 | the headers validateBlock accepted carry the id, time, results hash and application hash that a rollback reads back |
| StateStore.RollbackLoads | state/rollback.go:53-66 | what a rollback loads is what the previous state held |
| StateStore.RolledBackStore | state/rollback.go:68-115 | saving the rolled back state is not refused, changes the last heights as RollbackRewrite says, and each change height is restored or set to the rolled back height, exactly when is stated |
| StateStore.AssembledRestores | state/rollback.go:80-110 | the state put together is the previous one in all fields but the change heights |
| StateStore.DBStore.PutValidatorsInfo | state/store.go:589-617 | refused exactly when the change height lies above the height; else one entry is written |
| StateStore.DBStore.Save | state/store.go:171-208 | writes what the specification of a save says, or fails without replacing the state |
| StateStore.DBStore.PruneStates | state/store.go:248-378 | rejects bad arguments; at every batch flush, error or stop what must be retained is; on success every other height in range is gone and kept ones hold their own full set; when the kept entries are there it succeeds iff the process lives for all flushes, and one that does not has swept exactly the highest heights, 1000 a flush |
| StateStore.DBStore.Rollback | state/rollback.go:15-120 | undoes the last applied block: all fields are restored, the two change heights exactly when ChangeHeights says, the validators of the next height load exactly when RollbackKeeps says; leaves everything alone in the early-return and error cases |
| LightVerifier.VerifyMeans | light/verifier.go:32-206 | exactly when each verdict is given, by the expiry, the header checks, the tie to the trusted block, the tally of its voters and the signatures of the new ones; an accepted header passes all of them |
| LightVerifier.LinkedGrows | light/client.go:707-774 | along a linked trace heights and times strictly increase |
| LightVerifier.PivotBetween | light/client.go:750-751 | every pivot lies strictly between its bounds |
| LightVerifier.BisectLinks | light/client.go:707-774 | what bisection returns is a trace from the trusted block to the target in which each block is accepted on the word of the one before |
| LightVerifier.BisectRun | light/client.go:707-774 | bisection probe by probe: a block that is accepted becomes the verified one, one that only lacks trust leads to the next lower one, and a block is asked for iff the lowest one held lacks trust; anything else ends it |
| LightVerifier.BisectReaches | light/client.go:707-774 | over a chain in which each block accepts each later one, or only lacks trust in it, the target is reached |
| LightVerifier.DoubledFacts | light/client.go:752-766 | the shape of the cache that holds every fetched block twice |
| LightVerifier.VerifySkipping | light/client.go:707-774 | terminates, and the cache with doubled blocks makes exactly the probes and requests of bisection with every block kept once: a request iff too few trusted voters signed the lowest block held; the target is reached if the source serves a chain in which blocks accept each other or only lack trust |
| LightClient.Client.RemoveWitnesses | light/client.go:1020-1035 | removing distinct indexes leaves exactly the multiset of the others; refused if none would be left |
| LightClient.SortOK | light/client.go:1028 | sorting distinct indexes gives the same ones in ascending order |
| LightClient.Client.Promote | light/client.go:1084-1108 | the respondent becomes the primary; conservation, or the exact state left when no witness would remain |
| LightClient.Client.FindNewPrimary | light/client.go:1047-1128 | for any order of arrival: a replacement answered with the block asked for, it was the first one to; exactly the witnesses that failed before it are dropped, and all other providers are conserved; when there is none, and the state then |
| LightClient.ProvidersConserved | light/client.go:1084-1108 | the old primary is gone iff removal was asked, and is a witness otherwise |
| LightClient.NoneFound | light/client.go:1076-1127 | when the loop ends without success no witness had the block |
| LightClient.Client.LightBlockFromPrimary | light/client.go:991-1017 | a block comes with the height asked for; a primary that has none becomes a witness, one that misbehaved is dropped, and the block is then that of the new primary, if one is found; the number of witnesses does not grow |
| LightClient.Client.VerifySequential | light/client.go:614-698 | terminates under primary replacement; the trace handed on has every height from the trusted block to the target, each accepted as adjacent and linked by the next validators' hash; a primary that serves such a trace is never replaced and its trace is handed on; from block to block, exactly when it goes on, replaces the primary and asks again, or gives up |
| LightClient.SequentialLinked | light/client.go:614-698 | a sequential trace is linked in the sense of bisection |
| LightClient.Client.VerifySkippingAgainstPrimary | light/client.go:778-829 | terminates; a trace handed on links the trusted block to a block with the target's height and hash, an abandoned bisection hands on an empty one, and providers change only for an invalid block before the target; exactly when it starts again from another primary, and when it gives up |
| Signer.CheckHRSOrders | privval/file.go:101-133 | comparison is by the lexicographic order: new iff greater, regression iff smaller |
| Signer.BytesDiffer | types/canonical.go:41-65 | different messages or chains have different sign bytes |
| Signer.SeesTime | privval/file.go:425-462 | comparing bytes finds exactly the messages that differ in time only, and gives the earlier time |
| Signer.StoredLast | privval/file.go:411-462 | the state holds the last message signed, of the kind its step says, so that decoding its bytes for comparison does not fail |
| Signer.SignedNew | privval/file.go:411-420 | newly signed messages strictly increase in height, round and step |
| Signer.ReleasedOnce | privval/file.go:329-408 | two votes handed out for one height, round and type agree in chain, block, time and signature, two proposals for one height and round in the polka round as well |
| Signer.FilePV.LoadFilePV | privval/file.go:208-243 | a restart restores what the file holds |
| Signer.FilePV.SaveSigned | privval/file.go:411-420 | dying before or after the write leaves a file to restart from; nothing is handed out before it is written |
| Signer.FilePV.SignVote | privval/file.go:329-366 | refused as a regression iff earlier than the last message; at the same position it gets the last vote, time and signature iff chain and block agree, and is refused as conflicting otherwise; later it is signed, unless the key cannot; the signature covers the message returned; panics iff of an unknown type |
| Signer.FilePV.SignProposal | privval/file.go:371-408 | the same for proposals; never panics |
| Signer.FilePV.Live | privval/file.go:208-462 | over any sequence of requests, crashes and restarts no vote or proposal handed out contradicts another one |
| SnapshotPool.OfferOK | statesync/snapshots.go:75-118 | adding an offer keeps all maps in step; one peer more offers the snapshot, which is kept as first offered |
| SnapshotPool.WithoutOK | statesync/snapshots.go:242-255 | removing a snapshot keeps all maps in step and touches no other snapshot |
| SnapshotPool.LeftOK | statesync/snapshots.go:231-239 | a peer leaving one snapshot keeps all maps in step; the snapshot goes iff nobody else offers it |
| SnapshotPool.StaysClean | statesync/snapshots.go:191-239 | a pool that only shrinks gains nothing blacklisted |
| SnapshotPool.PlaceOK | statesync/snapshots.go:158-188 | placing a snapshot by height, format and number of peers keeps the ranking in order |
| SnapshotPool.SnapshotPool.Add | statesync/snapshots.go:75-118 | refused iff blacklisted by format, peer or key or the peer has ten; else exactly this offer is added, and it reports whether the snapshot is new |
| SnapshotPool.SnapshotPool.RemoveSnapshot | statesync/snapshots.go:242-255 | the loops over the maps remove the snapshot from all of them |
| SnapshotPool.SnapshotPool.Reject | statesync/snapshots.go:191-198 | exactly this snapshot goes and its key stays blacklisted |
| SnapshotPool.SnapshotPool.RejectFormat | statesync/snapshots.go:201-209 | exactly the snapshots of this format go |
| SnapshotPool.SnapshotPool.RemovePeerFrom | statesync/snapshots.go:231-239 | the peer is gone from every snapshot, other offers stay, and snapshots without offers go |
| SnapshotPool.SnapshotPool.RejectPeer | statesync/snapshots.go:212-221 | the same, and the peer stays blacklisted; the empty id does nothing |
| SnapshotPool.SnapshotPool.Ranked | statesync/snapshots.go:158-188 | lists every snapshot once, ordered by height, then by format, then by the number of peers |
| SnapshotPool.SnapshotPool.Serve | statesync/snapshots.go:75-255 | each request does to the pool what it does to a plain ledger of who offers what |
| SnapshotPool.SnapshotPool.Live | statesync/snapshots.go:75-255 | over any requests the maps stay in step, every snapshot has a peer, no peer has more than ten, and nothing rejected comes back; the five maps refine a plain ledger of who offers what |
| SnapshotKey.SameKey | statesync/snapshots.go:30-39 | two snapshots share a key text iff height and format agree and chunks, hash and metadata run together to the same text |
| SnapshotKey.KeyDetermines | statesync/snapshots.go:30-39 | with equal chunk counts and hash lengths the key text determines the snapshot |
| SnapshotKey.KeyRunsTogether | statesync/snapshots.go:27-39 | different snapshots with one key text |
| SnapshotKey.DecimalDetermines | statesync/snapshots.go:33 | a number is determined by its decimal text |
| ChunkQueue.GivenOutOnceMore | statesync/chunks.go:105-121 | giving out a chunk that is not outstanding keeps the rule that no chunk is given out twice without a discard in between |
| ChunkQueue.LogMore | statesync/chunks.go:147-286 | what each event does to a chunk's being restored or outstanding |
| ChunkQueue.ChunkQueue.Add | statesync/chunks.go:63-101 | accepted iff open, for this snapshot, in range and new; never replaces a chunk |
| ChunkQueue.ChunkQueue.Allocate | statesync/chunks.go:105-121 | gives out the least chunk not given out, or none iff closed or all are out |
| ChunkQueue.ChunkQueue.Discard | statesync/chunks.go:147-170 | only an arrived chunk of an open queue is discarded, and becomes available again |
| ChunkQueue.ChunkQueue.DiscardSender | statesync/chunks.go:174-188 | exactly the sender's unreturned chunks are discarded |
| ChunkQueue.ChunkQueue.Retry | statesync/chunks.go:275-279 | the chunk will be returned again |
| ChunkQueue.ChunkQueue.RetryAll | statesync/chunks.go:282-286 | all chunks will be returned again |
| ChunkQueue.ChunkQueue.Next | statesync/chunks.go:226-272 | returns the least unreturned chunk with its current contents, or the end iff all are returned or the queue is closed, although it marks a chunk before it arrives |
| ChunkQueue.ChunkQueue.ApplyChunks | statesync/syncer.go:367-420 | success on an open queue means every chunk's last delivery was accepted with the contents stored, and not retried or discarded since; it is reached when all chunks are there and the application accepts them |
| ChunkQueue.ChunkQueue.ApplyNext | statesync/syncer.go:368-419 | one turn of the loop keeps every returned chunk restored, whatever the answer and whatever others do before each locked section |
| ChunkQueue.ChunkQueue.Deliver | statesync/syncer.go:376-405 | after the delivery every chunk here that the application wants again, and every unreturned one of a peer it rejects, is discarded, unless the queue is closed; no chunk is left counted as applied that is not, with others at work between any two discards |
| ChunkQueue.ChunkQueue.Restore | statesync/syncer.go:141-233 | the same when the application asks to retry the snapshot |
| TxCache.PushedFacts | mempool/clist_mempool.go:849-871 | the cache holds distinct keys within its size, ends with the key pushed, and loses at most the least recent one |
| TxCache.DropFacts | mempool/clist_mempool.go:874-884 | removing takes out that key and no other |
| TxCache.LinkedKeys | mempool/clist_mempool.go:819-829 | list and map hold the same keys, each once |
| TxCache.MoveLinked | mempool/clist_mempool.go:855-858 | moving an element to the back keeps list and map in step |
| TxCache.RemoveLinked | mempool/clist_mempool.go:860-867 | taking an element out keeps list and map in step |
| TxCache.MapTxCache.Push | mempool/clist_mempool.go:849-871 | map and list refine the bounded recency sequence; true iff the key is new |
| TxCache.MapTxCache.Remove | mempool/clist_mempool.go:874-884 | map and list refine removal from the sequence |
| TxCache.MapTxCache.Reset | mempool/clist_mempool.go:840-845 | empties the sequence |
| PeerIDs.FreeID | mempool/reactor.go:60-63 | below the limit some 16-bit id is free |
| PeerIDs.MempoolIDs.NextPeerID | mempool/reactor.go:60-74 | terminates across the wrap-around; never 0 nor an id in use, and the next free one from the counter on; panics iff 65535 are in use |
| PeerIDs.MempoolIDs.ReserveForPeer | mempool/reactor.go:49-56 | live peers hold distinct ids |
| PeerIDs.MempoolIDs.Reclaim | mempool/reactor.go:77-86 | frees the peer's id and no other |
| Mempool.CapacityReserve | mempool/clist_mempool.go:473-492 | what reserve has read, though stale, still bounds the list together with what is on its way |
| Mempool.CapacityAround | mempool/clist_mempool.go:308-371 | the checks before and after reserve move no counter |
| Mempool.CapacityAdd | mempool/clist_mempool.go:426-545 | pushing, storing, counting and releasing keep the counters exact and the bounds |
| Mempool.CapacityRemove | mempool/clist_mempool.go:436-455 | each step of any of the removals under way keeps them |
| Mempool.CapacityCommit | mempool/clist_mempool.go:691-730 | so does removing what a block committed |
| Mempool.CapacityStep | mempool/clist_mempool.go:308-545 | every step keeps them |
| Mempool.StructureStep | mempool/clist_mempool.go:426-455 | every step keeps the map pointing at listed elements, or at one that a removal is taking away, so that each removal finds its element |
| Mempool.MatchPushCache | mempool/clist_mempool.go:346-361 | the cache admits one call per transaction |
| Mempool.MatchStep | mempool/clist_mempool.go:308-545 | every step keeps list and map matched while the cache loses no pending transaction |
| Mempool.MayComeAgain | mempool/clist_mempool.go:363-368 | a transaction that found no room or was refused leaves the cache, and no other does |
| Mempool.CacheChanges | mempool/clist_mempool.go:340-714 | what every step does to the cache: which ones forget just their transaction, which ones enter it and at whose cost, and that all others leave it alone |
| Mempool.RunOK | mempool/clist_mempool.go:308-580 | over every interleaving of calls and removals: list length and bytes together with transactions on their way never exceed the limits, the counters are exact, the cache has nothing twice and no more than its size, and list and map match while the cache has lost no pending transaction |
| Mempool.Quiescent | mempool/clist_mempool.go:308-545 | at rest the byte counter is the sum of the listed sizes, reservations are those of failed connections, and list and map are in bijection |
| Mempool.AddsAlone | mempool/clist_mempool.go:308-545 | a call that nothing interrupts, for a new transaction with room for it that the application accepts, adds it to list, map, bytes and cache and gives back what it reserved |
| Mempool.RefusedAlone | mempool/clist_mempool.go:308-545 | one without room, or that the application refuses, leaves nothing but what the cache keeps as configured |
| Mempool.RemovesAlone | mempool/clist_mempool.go:436-455 | a removal that nothing interrupts takes exactly its transaction out of list, map and bytes, and out of the cache iff it is told to |
| Mempool.CommitRemoves | mempool/clist_mempool.go:707-730 | a committed transaction leaves the map and its element the list; all others stay, in their order |
| Mempool.CommitClears | mempool/clist_mempool.go:707-730 | while list and map match nothing of it is left in the list; the cache has it if it was valid, and else as configured, and nothing else new |
| Mempool.LeakHappens | mempool/clist_mempool.go:308-371 | a run of one call whose connection fails: at rest, with an empty list and one place reserved |
| Mempool.LeakedCounts | mempool/clist_mempool.go:308-371 | over every run the lost reservations are exactly the failed connections |
| Mempool.NoRoomLeft | mempool/clist_mempool.go:473-492 | after as many failures as the mempool has places every call finds it full |
| EvidencePool.ExpiryFollowsAge | evidence/pool.go:265-273 | with block times that do not decrease, younger evidence expires no earlier |
| EvidencePool.SweepStops | evidence/pool.go:403-434 | stopping at the first unexpired piece leaves exactly the unexpired ones |
| EvidencePool.Pool.CheckEvidence | evidence/pool.go:192-230 | passes iff the evidence is distinct and each piece is pending and no light attack, or uncommitted and verified; of committed evidence only what is pending as well passes; else the verdict is that of the first piece that does not pass; what passes is pending, and only verified evidence is added |
| EvidencePool.Pool.CheckOne | evidence/pool.go:194-215 | committed evidence passes iff it is pending as well and no light attack, and is turned down as committed otherwise; new evidence passes iff its block is known, it is dated like it, has not expired and is sound |
| EvidencePool.Pool.MarkCommitted | evidence/pool.go:328-356 | exactly the block's evidence becomes committed and leaves the pending set; evidence that was committed before is noted; no other leaves the gossip list |
| EvidencePool.Pool.RemoveFromList | evidence/pool.go:436-447 | exactly the named evidence leaves the gossip list |
| EvidencePool.Pool.RemoveExpired | evidence/pool.go:403-434 | leaves exactly the unexpired evidence although it stops early, and returns when the oldest of it will have expired, a block and a second later |
| EvidencePool.ExpiresWhen | evidence/pool.go:265-273 | evidence has expired exactly from the height noted for it on, once the block time has come within a second of the time noted |
| EvidencePool.Pool.PruneWhenDue | evidence/pool.go:125-130 | prunes iff the counter is not 0 and the height and time noted by the last prune are past |
| EvidencePool.Pool.ProcessBuffer | evidence/pool.go:459-529 | all reported votes whose block time is known become pending evidence dated like their block, unless committed already, and are gossiped, and nothing else does |
| EvidencePool.Pool.Update | evidence/pool.go:105-131 | only committed or expired evidence leaves the pending set, and none that has expired stays if the noted height and time are past and the counter has not wrapped; nothing is pruned otherwise; all reported votes that can be dated are taken, and nothing else; panics iff the height does not grow; nothing comes to be pending and committed |
| EvidencePool.Pool.StartAdd | evidence/pool.go:134-155 | an addition goes on iff the evidence is neither pending nor committed and verifies |
| EvidencePool.Pool.EndAdd | evidence/pool.go:157-168 | its end makes the evidence pending, and committed as well iff a block has committed it meanwhile, which is noted as a race |
| EvidencePool.Pool.ApplyBlock | state/execution.go:162-265 | checking a block's evidence, additions that end meanwhile, and the update: exactly when the block passes and is applied, and what it commits again was raced before |
| EvidencePool.CommittedTwice | evidence/pool.go:134-230 | a run in which one piece of evidence is committed by two blocks that both pass their check |
| EvidencePool.ExpiredLeft | evidence/pool.go:105-131 | a run after which expired evidence is still pending |
| EvidencePool.Pool.ListPending | evidence/pool.go:360-401 | lists all pending evidence once, oldest first |
| EvidencePool.Pool.Restart | evidence/pool.go:54-84 | a restart prunes and gossips exactly what is pending |
| EvidencePool.Pool.Live | evidence/pool.go:105-230 | over any interleaving of blocks, checks, reports, additions and restarts: evidence is pending and committed at once, or committed twice, only if it was committed while it was being added; without such a race neither happens |
| WAL.GetPut | consensus/wal.go:322-324 | a 32-bit big-endian number is read back |
| WAL.DecodeFrame | consensus/wal.go:365-419 | one frame is read back from the front of any input, from a file or a group |
| WAL.DecodeExact | consensus/wal.go:365-419 | exactly which inputs give the end, a message or an error: length, checksum and data are all looked at, and a file that ends within a frame reads as zeros |
| WAL.FitsIfRead | consensus/wal.go:300-389 | the encoder refuses exactly the messages whose frames the decoder would refuse for their length |
| WAL.RoundTrip | consensus/wal.go:300-419 | the encodings of any list of messages decode to that list and then the end |
| WAL.ReadsAcrossFiles | consensus/wal.go:300-419 | so do the encodings in two successive files |
| WAL.EncodeMore | consensus/wal.go:300-329 | encoding appends a frame |
| WAL.RepairWalFile | consensus/state.go:2462-2494 | the repaired file decodes without error to exactly the messages before the first failure; fails iff one of them no longer fits |
| WAL.Scan | consensus/wal.go:251-280 | finds the first end of the height in what one reader goes through, or the last marker seen; fails iff a broken entry comes first and is not to be skipped |
| WAL.SearchForEndHeight | consensus/wal.go:231-283 | a position found holds the first such marker from that file on; which file, broken entry or lower marker ends the search is exact, newest file first; found iff the specified search succeeds |
| WAL.LastMarkerFrom | consensus/wal.go:238-271 | the last marker noted does not depend on the file the search has come to |
| WAL.SearchExact | consensus/wal.go:250-259 | the search succeeds iff the log holds the height and no newer file makes it give up |
| WAL.SearchFinds | consensus/wal.go:231-283 | with growing markers the search finds a height iff the log holds it |
| WAL.SearchMisses | consensus/wal.go:254-257 | an instance with a lower marker later in the log that is missed |

## Left out

- Liveness: timers, sleeps and contexts; a timeout is an input that may come at any time after it was scheduled.
- Restarts: a replay gets the same answers from validation, application and configuration as before; a log damaged by a death, which is repaired and replayed again, errors on writing the log, and the check for own signatures in recent blocks (consensus/state.go:426), off by default, are not modelled.
- Proposer selection, proposal creation and block contents: a proposal is any header, a block is its hash and whether it validates, parts are a header and whether they are complete.
- Vote signatures and indexes: votes carry the voter's address, and invalid votes do not enter the log.
- Gossip, peer state, p2p, RPC, configuration and metrics.
- Crash recovery: a genesis file without validators, loading consensus parameters in replayBlock, pruned block stores below the state, and a state-synced node with an empty block store.
- State store: the limit on the total power of a change set, which counts as updates that do not validate, and the priorities it computes; the ABCI responses that PruneStates deletes as well, the version and chain id in the state, I/O errors.
- StateStore.DBStore.Rollback: says nothing of the version, and of the current validators restores addresses and powers, not the order of proposers.
- Light client: light/detector.go, `backwards` and `cleanupAfter`, whose results depend on channel traffic or on providers answering consistently; commit tallies are uninterpreted.
- Signer: `Reset`, which is documented as unsafe, and remote signers.
- ChunkQueue: I/O errors, and the waiter channels, of which only the outcome of waiting is modelled.
- SnapshotPool: peers' connections, and `GetPeer`'s random choice.
- Mempool: `Flush`, which is documented as unsafe, reaping, and a cache of size 0, for which list and map are not claimed to match.
- Mempool.RunOK: models the list, map, counters and cache as a state machine on values, not as objects updated in place, because their updates interleave; two removals of one list element, which clist.Remove does not allow, do not overlap.
- EvidencePool: the kind-specific checks of verify.go are uninterpreted.
- WAL: rotation of the group, flushing, and the position from which decoding continues after corrupted data.
