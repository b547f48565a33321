/** The round state of one consensus node and its transitions, as functions from
    the state before a call to the state after it. `ConsensusState.dfy` has the
    node itself, whose methods update these fields in place. */
module RoundStates {
  import opened Collections
  import opened Quorum
  import opened VoteSets

  const STEP_NEW_HEIGHT := 1
  const STEP_NEW_ROUND := 2
  const STEP_PROPOSE := 3
  const STEP_PREVOTE := 4
  const STEP_PREVOTE_WAIT := 5
  const STEP_PRECOMMIT := 6
  const STEP_PRECOMMIT_WAIT := 7
  const STEP_COMMIT := 8

  datatype Timeout = Timeout(height: int, round: nat, step: int)

  datatype Proposal = Proposal(polRound: int, parts: int)

  datatype PartSet = PartSet(header: int, complete: bool)

  datatype LastCommit = LastCommit(round: int, votes: VoteSet, voters: VoterSet)

  /** A vote handed to the signer, with the vote sets it was decided on. */
  datatype SignRequest = SignRequest(vote: Vote, votes: HeightVoteSet)

  /** A finalized block, with the vote sets it was finalized on. */
  datatype Decision = Decision(id: BlockID, round: int, votes: HeightVoteSet)

  /** The panics of the state machine. A node that panics stops. */
  datatype Failure =
    | PrevoteWaitWithoutQuorum | PrecommitWaitWithoutQuorum | PolRoundTooLow
    | CommitWithoutQuorum | FinalizeWithoutQuorum | LastCommitWithoutQuorum | SetRoundBackwards
    | FinalizeWrongHeight | FinalizeWrongBlock | FinalizeWrongParts
    | PolkaForInvalidBlock | CommitOfInvalidBlock | VoteForMissingLastCommit

  datatype RoundState = RoundState(
    self: nat,                           // address of this node's key
    height: int,
    round: nat,
    step: int,
    voters: VoterSet,
    proposal: Option<Proposal>,
    proposalBlock: Option<int>,
    proposalParts: Option<PartSet>,
    lockedRound: int,
    lockedBlock: Option<int>,
    lockedParts: int,
    validRound: int,
    validBlock: Option<int>,
    votes: HeightVoteSet,
    commitRound: int,
    lastCommit: Option<LastCommit>,
    triggeredTimeoutPrecommit: bool,
    timeouts: set<Timeout>,              // scheduled so far
    signed: seq<SignRequest>,            // handed to the signer so far
    decisions: seq<Decision>,            // finalized so far
    failure: Option<Failure>)

  /** What the chain fixes for every node: the first height and the voter set that
      follows from the blocks finalized so far. */
  datatype Chain = Chain(initialHeight: int, votersAfter: seq<int> -> VoterSet)

  /** Answers the node gets from its surroundings while it handles one input. */
  datatype Env = Env(
    validBlock: (int, int) -> bool,      // ValidateBlock at a round
    applyBlock: bool,                    // ApplyBlock succeeded
    waitForTxs: bool,                    // configured so, and the last block left the app hash
    emptyBlocksInterval: bool,
    skipTimeoutCommit: bool)

  function Hashes(ds: seq<Decision>): seq<int> {
    seq(|ds|, i requires 0 <= i < |ds| => if ds[i].id.BlockID? then ds[i].id.hash else 0)
  }

  function Init(chain: Chain, self: nat): RoundState {
    RoundState(
      self, chain.initialHeight, 0, STEP_NEW_HEIGHT, chain.votersAfter([]),
      None, None, None, -1, None, 0, -1, None, NewHeightVoteSet, -1, None, false,
      {Timeout(chain.initialHeight, 0, STEP_NEW_HEIGHT)}, [], [], None)
  }

  // ------------------------------------------------------------- small steps

  function Fail(s: RoundState, f: Failure): RoundState {
    s.(failure := Some(f))
  }

  function SetStep(s: RoundState, round: nat, step: int): RoundState {
    s.(round := round, step := step)
  }

  function Schedule(s: RoundState, height: int, round: nat, step: int): RoundState {
    s.(timeouts := s.timeouts + {Timeout(height, round, step)})
  }

  /** signAddVote: the vote carries the round the node is in when it signs. */
  function Sign(s: RoundState, kind: VoteType, id: BlockID): RoundState
  {
    s.(signed := s.signed + [SignRequest(Vote(kind, s.height, s.round, id, s.self), s.votes)])
  }

  function Unlock(s: RoundState): RoundState {
    s.(lockedRound := -1, lockedBlock := None, lockedParts := 0)
  }

  function PartsHeader(parts: Option<PartSet>): int {
    if parts.Some? then parts.value.header else 0
  }

  function PartsOf(id: BlockID): int {
    if id.BlockID? then id.parts else 0
  }

  predicate HasHeader(parts: Option<PartSet>, header: int) {
    parts.Some? && parts.value.header == header
  }

  function ExpectParts(s: RoundState, header: int): RoundState {
    s.(proposalParts := Some(PartSet(header, false)))
  }

  predicate IsProposalComplete(s: RoundState) {
    && s.proposal.Some? && s.proposalBlock.Some?
    && (s.proposal.value.polRound < 0 || Prevotes(s.votes, s.proposal.value.polRound).maj23.Some?)
  }

  // ------------------------------------------------------------ entering steps

  /** Sets up a round; proposals of round 0 may have come in early and are kept. */
  function StartRound(s: RoundState, round: nat): RoundState {
    var s1 := SetStep(s, round, STEP_NEW_ROUND);
    var s2 := if round == 0 then s1 else s1.(proposal := None, proposalBlock := None, proposalParts := None);
    s2.(votes := SetRound(s2.votes, round + 1), triggeredTimeoutPrecommit := false)
  }

  /** The first height never waits for transactions. */
  predicate NeedsFirstBlock(s: RoundState) {
    s.decisions == []
  }

  function EnterNewRound(s: RoundState, env: Env, height: int, round: nat): RoundState {
    if s.failure.Some? || s.height != height || round < s.round
       || (s.round == round && s.step != STEP_NEW_HEIGHT) then s
    else if !CanSetRound(s.votes, round + 1) then Fail(s, SetRoundBackwards)
    else
      var s1 := StartRound(s, round);
      if env.waitForTxs && round == 0 && !NeedsFirstBlock(s) then
        if env.emptyBlocksInterval then Schedule(s1, height, round, STEP_NEW_ROUND) else s1
      else EnterPropose(s1, env, height, round)
  }

  function EnterPropose(s: RoundState, env: Env, height: int, round: nat): RoundState
  {
    if s.failure.Some? || s.height != height || round < s.round
       || (s.round == round && STEP_PROPOSE <= s.step) then s
    else
      var s1 := SetStep(Schedule(s, height, round, STEP_PROPOSE), round, STEP_PROPOSE);
      if IsProposalComplete(s1) then EnterPrevote(s1, env, height, s1.round) else s1
  }

  function PrevoteChoice(s: RoundState, env: Env, round: nat): BlockID {
    if s.lockedBlock.Some? then BlockID(s.lockedBlock.value, s.lockedParts)
    else if s.proposalBlock.None? || !env.validBlock(round, s.proposalBlock.value) then NilBlock
    else BlockID(s.proposalBlock.value, PartsHeader(s.proposalParts))
  }

  function EnterPrevote(s: RoundState, env: Env, height: int, round: nat): RoundState
  {
    if s.failure.Some? || s.height != height || round < s.round
       || (s.round == round && STEP_PREVOTE <= s.step) then s
    else SetStep(Sign(s, Prevote, PrevoteChoice(s, env, round)), round, STEP_PREVOTE)
  }

  function EnterPrevoteWait(s: RoundState, height: int, round: nat): RoundState {
    if s.failure.Some? || s.height != height || round < s.round
       || (s.round == round && STEP_PREVOTE_WAIT <= s.step) then s
    else if !HasTwoThirdsAny(Prevotes(s.votes, round), s.voters) then Fail(s, PrevoteWaitWithoutQuorum)
    else SetStep(Schedule(s, height, round, STEP_PREVOTE_WAIT), round, STEP_PREVOTE_WAIT)
  }

  /** The body of enterPrecommit once there is a polka for a block: lock, relock, or
      unlock and ask for the block. */
  function PrecommitBlock(s: RoundState, env: Env, round: nat, id: BlockID): RoundState
    requires id.BlockID?
  {
    if HashesTo(s.lockedBlock, id) then Sign(s.(lockedRound := round), Precommit, id)
    else if HashesTo(s.proposalBlock, id) then
      if !env.validBlock(round, id.hash) then Fail(s, PolkaForInvalidBlock)
      else
        var s1 := s.(lockedRound := round, lockedBlock := s.proposalBlock,
                     lockedParts := PartsHeader(s.proposalParts));
        Sign(s1, Precommit, id)
    else
      var s1 := Unlock(s);
      var s2 := if HasHeader(s1.proposalParts, id.parts) then s1
                else ExpectParts(s1.(proposalBlock := None), id.parts);
      Sign(s2, Precommit, NilBlock)
  }

  function EnterPrecommit(s: RoundState, env: Env, height: int, round: nat): RoundState
  {
    if s.failure.Some? || s.height != height || round < s.round
       || (s.round == round && STEP_PRECOMMIT <= s.step) then s
    else
      var maj := Prevotes(s.votes, round).maj23;
      if maj.None? then SetStep(Sign(s, Precommit, NilBlock), round, STEP_PRECOMMIT)
      else if POLRound(s.votes, s.votes.round) < round then Fail(s, PolRoundTooLow)
      else if maj.value.NilBlock? then
        SetStep(Sign(Unlock(s), Precommit, NilBlock), round, STEP_PRECOMMIT)
      else SetStep(PrecommitBlock(s, env, round, maj.value), round, STEP_PRECOMMIT)
  }

  function EnterPrecommitWait(s: RoundState, height: int, round: nat): RoundState {
    if s.failure.Some? || s.height != height || round < s.round
       || (s.round == round && s.triggeredTimeoutPrecommit) then s
    else if !HasTwoThirdsAny(Precommits(s.votes, round), s.voters) then Fail(s, PrecommitWaitWithoutQuorum)
    else Schedule(s, height, round, STEP_PRECOMMIT_WAIT).(triggeredTimeoutPrecommit := true)
  }

  function EnterCommit(s: RoundState, chain: Chain, env: Env, height: int, commitRound: int): RoundState {
    if s.failure.Some? || s.height != height || STEP_COMMIT <= s.step then s
    else
      var maj := Precommits(s.votes, commitRound).maj23;
      if maj.None? then Fail(s, CommitWithoutQuorum)
      else
        var s1 := if HashesTo(s.lockedBlock, maj.value)
                  then s.(proposalBlock := s.lockedBlock, proposalParts := Some(PartSet(s.lockedParts, true)))
                  else s;
        var s2 := if HashesTo(s1.proposalBlock, maj.value) || HasHeader(s1.proposalParts, PartsOf(maj.value))
                  then s1 else ExpectParts(s1.(proposalBlock := None), PartsOf(maj.value));
        var s3 := SetStep(s2, s2.round, STEP_COMMIT).(commitRound := commitRound);
        TryFinalizeCommit(s3, chain, env, height)
  }

  function TryFinalizeCommit(s: RoundState, chain: Chain, env: Env, height: int): RoundState {
    if s.failure.Some? then s
    else if s.height != height then Fail(s, FinalizeWrongHeight)
    else
      var maj := Precommits(s.votes, s.commitRound).maj23;
      if maj.None? || maj.value.NilBlock? || !HashesTo(s.proposalBlock, maj.value) then s
      else FinalizeCommit(s, chain, env, height)
  }

  function FinalizeCommit(s: RoundState, chain: Chain, env: Env, height: int): RoundState {
    if s.failure.Some? || s.height != height || s.step != STEP_COMMIT then s
    else
      var maj := Precommits(s.votes, s.commitRound).maj23;
      if maj.None? then Fail(s, FinalizeWithoutQuorum)
      else if !HasHeader(s.proposalParts, PartsOf(maj.value)) then Fail(s, FinalizeWrongParts)
      else if !HashesTo(s.proposalBlock, maj.value) then Fail(s, FinalizeWrongBlock)
      else if !env.validBlock(s.commitRound, maj.value.hash) then Fail(s, CommitOfInvalidBlock)
      else if !env.applyBlock then s
      else
        var s1 := s.(decisions := s.decisions + [Decision(maj.value, s.commitRound, s.votes)]);
        var s2 := UpdateToState(s1, chain);
        if s2.failure.Some? then s2 else Schedule(s2, s2.height, 0, STEP_NEW_HEIGHT)
  }

  /** Moves to the height after the last finalized block. */
  function UpdateToState(s: RoundState, chain: Chain): RoundState {
    if s.commitRound > -1 && Precommits(s.votes, s.commitRound).maj23.None? then
      Fail(s, LastCommitWithoutQuorum)
    else
      s.(lastCommit := Some(LastCommit(s.commitRound, Precommits(s.votes, s.commitRound), s.voters)),
         height := chain.initialHeight + |s.decisions|, round := 0, step := STEP_NEW_HEIGHT,
         voters := chain.votersAfter(Hashes(s.decisions)),
         proposal := None, proposalBlock := None, proposalParts := None,
         lockedRound := -1, lockedBlock := None, lockedParts := 0,
         validRound := -1, validBlock := None,
         votes := NewHeightVoteSet, commitRound := -1, triggeredTimeoutPrecommit := false)
  }

  // ------------------------------------------------------------------ messages

  /** A precommit for the previous height, while the node waits for the next one. */
  function AddLastCommitVote(s: RoundState, env: Env, vote: Vote): RoundState
  {
    if s.step != STEP_NEW_HEIGHT then s
    else if s.lastCommit.None? then Fail(s, VoteForMissingLastCommit)
    else if vote.round != s.lastCommit.value.round then s
    else
      var lc := s.lastCommit.value;
      var (vs, added) := AddVoteToSet(lc.votes, lc.voters, vote.voter, vote.id);
      var s1 := s.(lastCommit := Some(lc.(votes := vs)));
      if added && env.skipTimeoutCommit && HasAll(vs, lc.voters)
      then EnterNewRound(s1, env, s1.height, 0) else s1
  }

  /** Unlock and valid-block rules for a polka that the last prevote completed. */
  function OnPolka(s: RoundState, round: nat, id: BlockID): RoundState {
    ValidOnPolka(UnlockOnPolka(s, round, id), round, id)
  }

  function UnlockOnPolka(s: RoundState, round: nat, id: BlockID): RoundState {
    if s.lockedBlock.Some? && s.lockedRound < round <= s.round && !HashesTo(s.lockedBlock, id) then Unlock(s) else s
  }

  function ValidOnPolka(s: RoundState, round: nat, id: BlockID): RoundState {
    if id.NilBlock? || s.validRound >= round || round != s.round then s
    else
      var s1 := if HashesTo(s.proposalBlock, id) then s.(validRound := round, validBlock := s.proposalBlock)
                else s.(proposalBlock := None);
      if HasHeader(s1.proposalParts, id.parts) then s1 else ExpectParts(s1, id.parts)
  }

  function OnPrevote(s: RoundState, env: Env, round: nat): RoundState
  {
    var prevotes := Prevotes(s.votes, round);
    var s1 := if prevotes.maj23.Some? then OnPolka(s, round, prevotes.maj23.value) else s;
    if s1.round < round && HasTwoThirdsAny(prevotes, s1.voters) then
      EnterNewRound(s1, env, s1.height, round)
    else if s1.round == round && STEP_PREVOTE <= s1.step then
      if prevotes.maj23.Some? && (IsProposalComplete(s1) || prevotes.maj23.value.NilBlock?) then
        EnterPrecommit(s1, env, s1.height, round)
      else if HasTwoThirdsAny(prevotes, s1.voters) then EnterPrevoteWait(s1, s1.height, round)
      else s1
    else if s1.proposal.Some? && 0 <= s1.proposal.value.polRound == round && IsProposalComplete(s1) then
      EnterPrevote(s1, env, s1.height, s1.round)
    else s1
  }

  function OnPrecommit(s: RoundState, chain: Chain, env: Env, round: nat): RoundState
  {
    var precommits := Precommits(s.votes, round);
    if precommits.maj23.Some? then
      var s1 := EnterNewRound(s, env, s.height, round);
      var s2 := EnterPrecommit(s1, env, s.height, round);
      if precommits.maj23.value.BlockID? then
        var s3 := EnterCommit(s2, chain, env, s.height, round);
        if env.skipTimeoutCommit && HasAll(precommits, s.voters)
        then EnterNewRound(s3, env, s3.height, 0) else s3
      else EnterPrecommitWait(s2, s.height, round)
    else if s.round <= round && HasTwoThirdsAny(precommits, s.voters) then
      EnterPrecommitWait(EnterNewRound(s, env, s.height, round), s.height, round)
    else s
  }

  function HandleVote(s: RoundState, chain: Chain, env: Env, vote: Vote, peer: nat): RoundState
  {
    if vote.height + 1 == s.height && vote.kind.Precommit? then AddLastCommitVote(s, env, vote)
    else if vote.height != s.height then s
    else
      var (votes, added) := AddVote(s.votes, s.voters, vote, peer);
      var s1 := s.(votes := votes);
      if !added then s1
      else if vote.kind.Prevote? then OnPrevote(s1, env, vote.round)
      else OnPrecommit(s1, chain, env, vote.round)
  }

  /** setProposal; the proposer's signature has been checked. */
  function HandleProposal(s: RoundState, height: int, round: nat, proposal: Proposal): RoundState {
    if s.proposal.Some? || height != s.height || round != s.round
       || proposal.polRound < -1 || (proposal.polRound >= 0 && proposal.polRound >= round) then s
    else
      var s1 := s.(proposal := Some(proposal));
      if s1.proposalParts.None? then ExpectParts(s1, proposal.parts) else s1
  }

  /** A new block part. `complete` says that it was the last missing one, `block` what
      the parts decode to, if they do. */
  function HandleBlockPart(s: RoundState, chain: Chain, env: Env, height: int, complete: bool,
                           block: Option<int>): RoundState
  {
    if s.height != height || s.proposalParts.None? || s.proposalParts.value.complete || !complete then s
    else
      var s1 := s.(proposalParts := Some(s.proposalParts.value.(complete := true)));
      var s2 := if block.Some? then s1.(proposalBlock := block) else s1;
      HandleCompleteProposal(s2, chain, env, height)
  }

  function HandleCompleteProposal(s: RoundState, chain: Chain, env: Env, height: int): RoundState
  {
    var maj := Prevotes(s.votes, s.round).maj23;
    var s1 := if maj.Some? && maj.value.BlockID? && s.validRound < s.round
                 && HashesTo(s.proposalBlock, maj.value)
              then s.(validRound := s.round, validBlock := s.proposalBlock) else s;
    if s1.step <= STEP_PROPOSE && IsProposalComplete(s1) then
      var s2 := EnterPrevote(s1, env, height, s1.round);
      if maj.Some? then EnterPrecommit(s2, env, height, s2.round) else s2
    else if s1.step == STEP_COMMIT then TryFinalizeCommit(s1, chain, env, height)
    else s1
  }

  function HandleTimeout(s: RoundState, env: Env, t: Timeout): RoundState
  {
    if t.height != s.height || t.round < s.round || (t.round == s.round && t.step < s.step) then s
    else if t.step == STEP_NEW_HEIGHT then EnterNewRound(s, env, t.height, 0)
    else if t.step == STEP_NEW_ROUND then EnterPropose(s, env, t.height, 0)
    else if t.step == STEP_PROPOSE then EnterPrevote(s, env, t.height, t.round)
    else if t.step == STEP_PREVOTE_WAIT then EnterPrecommit(s, env, t.height, t.round)
    else if t.step == STEP_PRECOMMIT_WAIT then
      var s1 := EnterPrecommit(s, env, t.height, t.round);
      EnterNewRound(s1, env, t.height, t.round + 1)
    else s
  }

  /** Transactions became available; only round 0 waits for them. */
  function HandleTxsAvailable(s: RoundState, env: Env, needProofBlock: bool): RoundState
  {
    if s.round != 0 then s
    else if s.step == STEP_NEW_HEIGHT then
      if needProofBlock || NeedsFirstBlock(s) then s else Schedule(s, s.height, 0, STEP_NEW_ROUND)
    else if s.step == STEP_NEW_ROUND then EnterPropose(s, env, s.height, 0)
    else s
  }

  datatype Input =
    | VoteInput(vote: Vote, peer: nat)
    | ProposalInput(height: int, round: nat, proposal: Proposal)
    | BlockPartInput(height: int, complete: bool, block: Option<int>)
    | TimeoutInput(timeout: Timeout)
    | TxsAvailableInput(needProofBlock: bool)
    | Maj23Input(kind: VoteType, round: nat, peer: nat, id: BlockID)

  /** One turn of the receive routine. */
  function Handle(s: RoundState, chain: Chain, env: Env, input: Input): RoundState
  {
    if s.failure.Some? then s
    else
      match input
      case VoteInput(vote, peer) => HandleVote(s, chain, env, vote, peer)
      case ProposalInput(h, r, proposal) => HandleProposal(s, h, r, proposal)
      case BlockPartInput(h, complete, block) => HandleBlockPart(s, chain, env, h, complete, block)
      case TimeoutInput(t) => HandleTimeout(s, env, t)
      case TxsAvailableInput(need) => HandleTxsAvailable(s, env, need)
      case Maj23Input(kind, r, peer, id) => s.(votes := ClaimMaj23(s.votes, kind, r, peer, id))
  }
}
