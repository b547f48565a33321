/** The consensus node: fields updated in place by the methods that the receive routine
    calls. Every method makes exactly the transition of `RoundStates`. Of a node that keeps
    the invariant of `NodeInvariant` (Sound, judged in the ghost world `w`) the steps and
    handlers say what they do to its lock, its votes and its decisions. */
module ConsensusState {
  import opened Collections
  import opened Quorum
  import opened VoteSets
  import RS = RoundStates
  import opened NodeInvariant

  predicate CommitsBlock(votes: HeightVoteSet, round: int) {
    Precommits(votes, round).maj23.Some? && Precommits(votes, round).maj23.value.BlockID?
  }

  class State {
    const chain: RS.Chain
    const self: nat
    var height: int
    var round: nat
    var step: int
    var voters: VoterSet
    var proposal: Option<RS.Proposal>
    var proposalBlock: Option<int>
    var proposalParts: Option<RS.PartSet>
    var lockedRound: int
    var lockedBlock: Option<int>
    var lockedParts: int
    var validRound: int
    var validBlock: Option<int>
    var votes: HeightVoteSet
    var commitRound: int
    var lastCommit: Option<RS.LastCommit>
    var triggeredTimeoutPrecommit: bool
    var timeouts: set<RS.Timeout>
    var signed: seq<RS.SignRequest>
    var decisions: seq<RS.Decision>
    var failure: Option<RS.Failure>

    ghost function View(): RS.RoundState
      reads this
    {
      RS.RoundState(
        self, height, round, step, voters, proposal, proposalBlock, proposalParts,
        lockedRound, lockedBlock, lockedParts, validRound, validBlock, votes, commitRound,
        lastCommit, triggeredTimeoutPrecommit, timeouts, signed, decisions, failure)
    }

    constructor (chain: RS.Chain, self: nat, ghost w: World)
      ensures this.chain == chain && View() == RS.Init(chain, self)
      ensures w.chain == chain && ChainOK(chain) ==> Sound(View(), chain, w)
    {
      hide NodeOK, ChainOK;
      if w.chain == chain && ChainOK(chain) {
        InitOK(w, self);
      }
      this.chain, this.self := chain, self;
      height, round, step := chain.initialHeight, 0, RS.STEP_NEW_HEIGHT;
      voters := chain.votersAfter([]);
      proposal, proposalBlock, proposalParts := None, None, None;
      lockedRound, lockedBlock, lockedParts := -1, None, 0;
      validRound, validBlock := -1, None;
      votes, commitRound, lastCommit := NewHeightVoteSet, -1, None;
      triggeredTimeoutPrecommit := false;
      timeouts := {RS.Timeout(chain.initialHeight, 0, RS.STEP_NEW_HEIGHT)};
      signed, decisions, failure := [], [], None;
    }

    method UpdateRoundStep(round: nat, step: int)
      modifies this`round, this`step
      ensures View() == RS.SetStep(old(View()), round, step)
    {
      this.round, this.step := round, step;
    }

    method ScheduleTimeout(height: int, round: nat, step: int)
      modifies this`timeouts
      ensures View() == RS.Schedule(old(View()), height, round, step)
    {
      timeouts := timeouts + {RS.Timeout(height, round, step)};
    }

    method SignAddVote(kind: VoteType, id: BlockID)
      modifies this`signed
      ensures View() == RS.Sign(old(View()), kind, id)
    {
      signed := signed + [RS.SignRequest(Vote(kind, height, round, id, self), votes)];
    }

    method ClearLock()
      modifies this`lockedRound, this`lockedBlock, this`lockedParts
      ensures View() == RS.Unlock(old(View()))
    {
      lockedRound, lockedBlock, lockedParts := -1, None, 0;
    }

    /** HeightVoteSet.SetRound: one new RoundVoteSet per round not tracked yet. */
    method TrackUpTo(newRound: int)
      modifies this`votes
      ensures votes == SetRound(old(votes), newRound)
    {
      var r := votes.round - 1;
      var sets := votes.sets;
      while r <= newRound
        invariant TrackRounds(sets, r, newRound) == TrackRounds(votes.sets, votes.round - 1, newRound)
        decreases newRound + 1 - r
      {
        if r !in sets {
          sets := sets[r := EmptyRound];
        }
        r := r + 1;
      }
      votes := votes.(round := newRound, sets := sets);
    }

    /** HeightVoteSet.POLInfo: scans the tracked rounds downwards. */
    method LastPOLRound() returns (r: int)
      ensures r == POLRound(votes, votes.round)
      ensures r >= 0 ==> Prevotes(votes, r).maj23.Some?
    {
      r := votes.round;
      while r >= 0
        invariant r >= -1 || r == votes.round
        invariant POLRound(votes, r) == POLRound(votes, votes.round)
        decreases r + 1
      {
        if Prevotes(votes, r).maj23.Some? {
          return;
        }
        r := r - 1;
      }
      r := -1;
    }

    predicate ProposalComplete()
      reads this
    {
      && proposal.Some? && proposalBlock.Some?
      && (proposal.value.polRound < 0 || Prevotes(votes, proposal.value.polRound).maj23.Some?)
    }

    method StartRound(round: nat)
      modifies this`round, this`step, this`proposal, this`proposalBlock, this`proposalParts,
               this`votes, this`triggeredTimeoutPrecommit
      ensures View() == RS.StartRound(old(View()), round)
    {
      hide SetRound, TrackRounds;
      UpdateRoundStep(round, RS.STEP_NEW_ROUND);
      if round != 0 {
        ClearProposal();
      }
      TrackUpTo(round + 1);
      triggeredTimeoutPrecommit := false;
    }

    method EnterNewRound(env: RS.Env, height: int, round: nat, ghost w: World)
      modifies this
      ensures View() == RS.EnterNewRound(old(View()), env, height, round)
      ensures Sound(old(View()), chain, w) ==>
        Sound(View(), chain, w) && Follows(old(View()), View())
        && failure == old(failure) && lockedBlock == old(lockedBlock)
        && (failure.None? && height == old(this.height) ==> this.round >= round)
    {
      hide NodeOK, ChainOK, RS.EnterPropose, RS.StartRound, RS.Schedule;
      if Sound(View(), chain, w) {
        EnterNewRoundOK(View(), w, env, height, round);
      }
      if failure.Some? || this.height != height || round < this.round
         || (this.round == round && step != RS.STEP_NEW_HEIGHT) {
        return;
      }
      if !CanSetRound(votes, round + 1) {
        failure := Some(RS.SetRoundBackwards);
        return;
      }
      StartRound(round);
      if env.waitForTxs && round == 0 && decisions != [] {
        if env.emptyBlocksInterval {
          ScheduleTimeout(height, round, RS.STEP_NEW_ROUND);
        }
      } else {
        EnterPropose(env, height, round, w);
      }
    }

    method EnterPropose(env: RS.Env, height: int, round: nat, ghost w: World)
      modifies this
      ensures View() == RS.EnterPropose(old(View()), env, height, round)
      ensures Sound(old(View()), chain, w) && round <= old(this.round) ==>
        Sound(View(), chain, w) && Follows(old(View()), View())
        && PrevotesRightly(old(View()), View(), env)
    {
      hide NodeOK, ChainOK, RS.EnterPrevote;
      if Sound(View(), chain, w) && round <= this.round {
        EnterProposeOK(View(), w, env, height, round);
      }
      if failure.Some? || this.height != height || round < this.round
         || (this.round == round && RS.STEP_PROPOSE <= step) {
        return;
      }
      ScheduleTimeout(height, round, RS.STEP_PROPOSE);
      UpdateRoundStep(round, RS.STEP_PROPOSE);
      if ProposalComplete() {
        EnterPrevote(env, height, this.round, w);
      }
    }

    method DoPrevote(env: RS.Env, round: nat)
      modifies this`signed
      ensures View() == RS.Sign(old(View()), Prevote, RS.PrevoteChoice(old(View()), env, round))
    {
      if lockedBlock.Some? {
        SignAddVote(Prevote, BlockID(lockedBlock.value, lockedParts));
        return;
      }
      if proposalBlock.None? {
        SignAddVote(Prevote, NilBlock);
        return;
      }
      if !env.validBlock(round, proposalBlock.value) {
        SignAddVote(Prevote, NilBlock);
        return;
      }
      SignAddVote(Prevote, BlockID(proposalBlock.value, RS.PartsHeader(proposalParts)));
    }

    method EnterPrevote(env: RS.Env, height: int, round: nat, ghost w: World)
      modifies this
      ensures View() == RS.EnterPrevote(old(View()), env, height, round)
      ensures Sound(old(View()), chain, w) && round <= old(this.round) ==>
        Sound(View(), chain, w) && Follows(old(View()), View())
        && PrevotesRightly(old(View()), View(), env)
    {
      hide NodeOK, ChainOK;
      if Sound(View(), chain, w) && round <= this.round {
        EnterPrevoteOK(View(), w, env, height, round);
      }
      if failure.Some? || this.height != height || round < this.round
         || (this.round == round && RS.STEP_PREVOTE <= step) {
        return;
      }
      DoPrevote(env, round);
      UpdateRoundStep(round, RS.STEP_PREVOTE);
    }

    method EnterPrevoteWait(height: int, round: nat, ghost w: World)
      modifies this
      ensures View() == RS.EnterPrevoteWait(old(View()), height, round)
      ensures
        && Sound(old(View()), chain, w) && round <= old(this.round)
        && (round == old(this.round) ==> HasTwoThirdsAny(Prevotes(old(votes), round), old(voters))) ==>
        Sound(View(), chain, w) && Follows(old(View()), View())
        && OnlyWaits(old(View()), View())
    {
      hide NodeOK, ChainOK;
      if Sound(View(), chain, w) && round <= this.round
         && (round == this.round ==> HasTwoThirdsAny(Prevotes(votes, round), voters)) {
        EnterPrevoteWaitOK(View(), w, height, round);
      }
      if failure.Some? || this.height != height || round < this.round
         || (this.round == round && RS.STEP_PREVOTE_WAIT <= step) {
        return;
      }
      if !HasTwoThirdsAny(Prevotes(votes, round), voters) {
        failure := Some(RS.PrevoteWaitWithoutQuorum);
        return;
      }
      ScheduleTimeout(height, round, RS.STEP_PREVOTE_WAIT);
      UpdateRoundStep(round, RS.STEP_PREVOTE_WAIT);
    }

    method EnterPrecommit(env: RS.Env, height: int, round: nat, ghost w: World)
      modifies this
      ensures View() == RS.EnterPrecommit(old(View()), env, height, round)
      ensures Sound(old(View()), chain, w) && round <= old(this.round) ==>
        Sound(View(), chain, w) && Follows(old(View()), View())
        && (if old(failure).None? && height == old(this.height) && round == old(this.round)
               && old(step) < RS.STEP_PRECOMMIT
            then PrecommitsRightly(old(View()), View(), env) else View() == old(View()))
    {
      hide NodeOK, ChainOK;
      if Sound(View(), chain, w) && round <= this.round {
        EnterPrecommitOK(View(), w, env, height, round);
      }
      if failure.Some? || this.height != height || round < this.round
         || (this.round == round && RS.STEP_PRECOMMIT <= step) {
        return;
      }
      var maj := Prevotes(votes, round).maj23;
      if maj.None? {
        SignAddVote(Precommit, NilBlock);
        UpdateRoundStep(round, RS.STEP_PRECOMMIT);
        return;
      }
      var polRound := LastPOLRound();
      if polRound < round {
        failure := Some(RS.PolRoundTooLow);
        return;
      }
      if maj.value.NilBlock? {
        ClearLock();
        SignAddVote(Precommit, NilBlock);
      } else {
        PrecommitPolka(env, round, maj.value);
      }
      UpdateRoundStep(round, RS.STEP_PRECOMMIT);
    }

    method PrecommitPolka(env: RS.Env, round: nat, id: BlockID)
      requires id.BlockID?
      modifies this
      ensures View() == RS.PrecommitBlock(old(View()), env, round, id)
    {
      if HashesTo(lockedBlock, id) {
        lockedRound := round;
        SignAddVote(Precommit, id);
        return;
      }
      if HashesTo(proposalBlock, id) {
        if !env.validBlock(round, proposalBlock.value) {
          failure := Some(RS.PolkaForInvalidBlock);
          return;
        }
        LockProposalBlock(round);
        SignAddVote(Precommit, id);
        return;
      }
      ClearLock();
      if !RS.HasHeader(proposalParts, id.parts) {
        AwaitParts(id.parts);
      }
      SignAddVote(Precommit, NilBlock);
    }

    method EnterPrecommitWait(height: int, round: nat, ghost w: World)
      modifies this
      ensures View() == RS.EnterPrecommitWait(old(View()), height, round)
      ensures
        && Sound(old(View()), chain, w) && round <= old(this.round)
        && (round == old(this.round) ==> HasTwoThirdsAny(Precommits(old(votes), round), old(voters))) ==>
        Sound(View(), chain, w) && Follows(old(View()), View())
        && OnlyWaits(old(View()), View())
    {
      hide NodeOK, ChainOK;
      if Sound(View(), chain, w) && round <= this.round
         && (round == this.round ==> HasTwoThirdsAny(Precommits(votes, round), voters)) {
        EnterPrecommitWaitOK(View(), w, height, round);
      }
      if failure.Some? || this.height != height || round < this.round
         || (this.round == round && triggeredTimeoutPrecommit) {
        return;
      }
      if !HasTwoThirdsAny(Precommits(votes, round), voters) {
        failure := Some(RS.PrecommitWaitWithoutQuorum);
        return;
      }
      ScheduleTimeout(height, round, RS.STEP_PRECOMMIT_WAIT);
      triggeredTimeoutPrecommit := true;
    }

    method EnterCommit(env: RS.Env, height: int, commitRound: int, ghost w: World)
      modifies this
      ensures View() == RS.EnterCommit(old(View()), chain, env, height, commitRound)
      ensures Sound(old(View()), chain, w) && commitRound >= 0 && CommitsBlock(old(votes), commitRound) ==>
        Sound(View(), chain, w) && Follows(old(View()), View())
        && FinalizesCommitted(old(View()), View(), env, commitRound)
        && (height == old(this.height) ==> ReachesCommit(old(View()), View()))
    {
      hide NodeOK, ChainOK, RS.TryFinalizeCommit;
      if Sound(View(), chain, w) && commitRound >= 0 && CommitsBlock(votes, commitRound) {
        EnterCommitOK(View(), w, env, height, commitRound);
      }
      if failure.Some? || this.height != height || RS.STEP_COMMIT <= step {
        return;
      }
      var maj := Precommits(votes, commitRound).maj23;
      if maj.None? {
        failure := Some(RS.CommitWithoutQuorum);
        return;
      }
      if HashesTo(lockedBlock, maj.value) {
        PromoteLockedBlock();
      }
      if !HashesTo(proposalBlock, maj.value) {
        if !RS.HasHeader(proposalParts, RS.PartsOf(maj.value)) {
          AwaitParts(RS.PartsOf(maj.value));
        }
      }
      UpdateRoundStep(round, RS.STEP_COMMIT);
      this.commitRound := commitRound;
      TryFinalizeCommit(env, height, w);
    }

    method TryFinalizeCommit(env: RS.Env, height: int, ghost w: World)
      modifies this
      ensures View() == RS.TryFinalizeCommit(old(View()), chain, env, height)
      ensures Sound(old(View()), chain, w) && height == old(this.height) && old(step) == RS.STEP_COMMIT ==>
        Sound(View(), chain, w) && Follows(old(View()), View())
        && FinalizesCommitted(old(View()), View(), env, old(commitRound))
        && (this.height > old(this.height) <==> Finalizable(old(View()), env))
    {
      hide NodeOK, ChainOK, RS.FinalizeCommit;
      if Sound(View(), chain, w) && height == this.height && step == RS.STEP_COMMIT {
        TryFinalizeCommitOK(View(), w, env);
      }
      if failure.Some? {
        return;
      }
      if this.height != height {
        failure := Some(RS.FinalizeWrongHeight);
        return;
      }
      var maj := Precommits(votes, commitRound).maj23;
      if maj.None? || maj.value.NilBlock? {
        return;
      }
      if !HashesTo(proposalBlock, maj.value) {
        return;
      }
      FinalizeCommit(env, height);
    }

    method FinalizeCommit(env: RS.Env, height: int)
      modifies this
      ensures View() == RS.FinalizeCommit(old(View()), chain, env, height)
    {
      hide RS.UpdateToState;
      if failure.Some? || this.height != height || step != RS.STEP_COMMIT {
        return;
      }
      var maj := Precommits(votes, commitRound).maj23;
      if maj.None? {
        failure := Some(RS.FinalizeWithoutQuorum);
        return;
      }
      if !RS.HasHeader(proposalParts, RS.PartsOf(maj.value)) {
        failure := Some(RS.FinalizeWrongParts);
        return;
      }
      if !HashesTo(proposalBlock, maj.value) {
        failure := Some(RS.FinalizeWrongBlock);
        return;
      }
      if !env.validBlock(commitRound, proposalBlock.value) {
        failure := Some(RS.CommitOfInvalidBlock);
        return;
      }
      if !env.applyBlock {
        return;
      }
      decisions := decisions + [RS.Decision(maj.value, commitRound, votes)];
      UpdateToState();
      if failure.Some? {
        return;
      }
      ScheduleTimeout(this.height, 0, RS.STEP_NEW_HEIGHT);
    }

    method UpdateToState()
      modifies this
      ensures View() == RS.UpdateToState(old(View()), chain)
    {
      if commitRound > -1 && Precommits(votes, commitRound).maj23.None? {
        failure := Some(RS.LastCommitWithoutQuorum);
        return;
      }
      KeepLastCommit();
      UpdateHeight(chain.initialHeight + |decisions|);
      UpdateRoundStep(0, RS.STEP_NEW_HEIGHT);
      ClearProposal();
      ClearLock();
      ClearValid();
      ResetVotes();
    }

    method KeepLastCommit()
      modifies this`lastCommit
      ensures View() == old(View()).(
        lastCommit := Some(RS.LastCommit(commitRound, Precommits(votes, commitRound), voters)))
    {
      lastCommit := Some(RS.LastCommit(commitRound, Precommits(votes, commitRound), voters));
    }

    method UpdateHeight(height: int)
      modifies this`height, this`voters
      ensures View() == old(View()).(height := height, voters := chain.votersAfter(RS.Hashes(decisions)))
    {
      this.height := height;
      voters := chain.votersAfter(RS.Hashes(decisions));
    }

    method ClearValid()
      modifies this`validRound, this`validBlock
      ensures View() == old(View()).(validRound := -1, validBlock := None)
    {
      validRound, validBlock := -1, None;
    }

    method ResetVotes()
      modifies this`votes, this`commitRound, this`triggeredTimeoutPrecommit
      ensures View() == old(View()).(votes := NewHeightVoteSet, commitRound := -1, triggeredTimeoutPrecommit := false)
    {
      votes, commitRound := NewHeightVoteSet, -1;
      triggeredTimeoutPrecommit := false;
    }

    method ClearProposal()
      modifies this`proposal, this`proposalBlock, this`proposalParts
      ensures View() == old(View()).(proposal := None, proposalBlock := None, proposalParts := None)
    {
      proposal, proposalBlock, proposalParts := None, None, None;
    }

    /** Forget the proposed block and wait for the parts of another one. */
    method AwaitParts(header: int)
      modifies this`proposalBlock, this`proposalParts
      ensures View() == RS.ExpectParts(old(View()).(proposalBlock := None), header)
    {
      proposalBlock := None;
      proposalParts := Some(RS.PartSet(header, false));
    }

    method LockProposalBlock(round: nat)
      modifies this`lockedRound, this`lockedBlock, this`lockedParts
      ensures View() == old(View()).(lockedRound := round, lockedBlock := proposalBlock,
                                     lockedParts := RS.PartsHeader(proposalParts))
    {
      lockedRound, lockedBlock, lockedParts := round, proposalBlock, RS.PartsHeader(proposalParts);
    }

    method PromoteLockedBlock()
      modifies this`proposalBlock, this`proposalParts
      ensures View() == old(View()).(proposalBlock := lockedBlock, proposalParts := Some(RS.PartSet(lockedParts, true)))
    {
      proposalBlock := lockedBlock;
      proposalParts := Some(RS.PartSet(lockedParts, true));
    }

    method SetProposal(height: int, round: nat, p: RS.Proposal, ghost w: World)
      modifies this
      ensures View() == RS.HandleProposal(old(View()), height, round, p)
      ensures Sound(old(View()), chain, w) ==>
        Sound(View(), chain, w) && Follows(old(View()), View()) && signed == old(signed)
    {
      hide NodeOK, ChainOK;
      if Sound(View(), chain, w) {
        HandleProposalOK(View(), w, height, round, p);
      }
      if proposal.Some? {
        return;
      }
      if height != this.height || round != this.round {
        return;
      }
      if p.polRound < -1 || (p.polRound >= 0 && p.polRound >= round) {
        return;
      }
      proposal := Some(p);
      if proposalParts.None? {
        proposalParts := Some(RS.PartSet(p.parts, false));
      }
    }

    method AddProposalBlockPart(env: RS.Env, height: int, complete: bool, block: Option<int>, ghost w: World)
      modifies this
      ensures View() == RS.HandleBlockPart(old(View()), chain, env, height, complete, block)
      ensures Sound(old(View()), chain, w) ==>
        Sound(View(), chain, w) && Follows(old(View()), View())
    {
      hide NodeOK, ChainOK;
      if Sound(View(), chain, w) {
        HandleBlockPartOK(View(), w, env, height, complete, block);
      }
      if this.height != height || proposalParts.None? || proposalParts.value.complete || !complete {
        return;
      }
      proposalParts := Some(proposalParts.value.(complete := true));
      if block.Some? {
        proposalBlock := block;
      }
      HandleCompleteProposal(env, height, w);
    }

    method HandleCompleteProposal(env: RS.Env, height: int, ghost w: World)
      modifies this
      ensures View() == RS.HandleCompleteProposal(old(View()), chain, env, height)
      ensures Sound(old(View()), chain, w) && height == old(this.height) ==>
        Sound(View(), chain, w) && Follows(old(View()), View())
        && (old(step) == RS.STEP_COMMIT ==> (this.height > old(this.height) <==> Finalizable(old(View()), env)))
    {
      hide NodeOK, ChainOK, RS.EnterPrevote, RS.EnterPrecommit, RS.TryFinalizeCommit;
      if Sound(View(), chain, w) && height == this.height {
        HandleCompleteProposalOK(View(), w, env);
      }
      var maj := Prevotes(votes, round).maj23;
      if maj.Some? && maj.value.BlockID? && validRound < round {
        if HashesTo(proposalBlock, maj.value) {
          MarkValid();
        }
      }
      if step <= RS.STEP_PROPOSE && ProposalComplete() {
        EnterPrevote(env, height, round, w);
        if maj.Some? {
          EnterPrecommit(env, height, round, w);
        }
      } else if step == RS.STEP_COMMIT {
        TryFinalizeCommit(env, height, w);
      }
    }

    method AddVoteMessage(env: RS.Env, vote: Vote, peer: nat, ghost w: World)
      modifies this
      ensures View() == RS.HandleVote(old(View()), chain, env, vote, peer)
      ensures Sound(old(View()), chain, w) && old(failure).None? && vote in w.cast ==>
        Sound(View(), chain, w) && Follows(old(View()), View())
      ensures Sound(old(View()), chain, w) && old(failure).None? ==>
        (failure == Some(RS.VoteForMissingLastCommit) <==>
         vote.kind.Precommit? && vote.height + 1 == old(height) == chain.initialHeight
         && old(step) == RS.STEP_NEW_HEIGHT)
    {
      hide NodeOK, ChainOK, AddVote, RS.OnPrevote, RS.OnPrecommit, RS.AddLastCommitVote;
      if Sound(View(), chain, w) && failure.None? && vote in w.cast {
        HandleVoteOK(View(), w, env, vote, peer);
      }
      if Sound(View(), chain, w) && failure.None? {
        MissingLastCommit(View(), w, env, vote, peer);
      }
      if vote.height + 1 == height && vote.kind.Precommit? {
        AddLastCommitVote(env, vote, w);
        return;
      }
      if vote.height != height {
        return;
      }
      var (newVotes, added) := AddVote(votes, voters, vote, peer);
      votes := newVotes;
      if !added {
        return;
      }
      if vote.kind.Prevote? {
        AddedPrevote(env, vote.round, w);
      } else {
        AddedPrecommit(env, vote.round, w);
      }
    }

    method AddLastCommitVote(env: RS.Env, vote: Vote, ghost w: World)
      modifies this
      ensures View() == RS.AddLastCommitVote(old(View()), env, vote)
      ensures Sound(old(View()), chain, w) ==>
        Sound(View(), chain, w) && Follows(old(View()), View())
    {
      hide NodeOK, ChainOK;
      if Sound(View(), chain, w) {
        AddLastCommitVoteOK(View(), w, env, vote);
      }
      if step != RS.STEP_NEW_HEIGHT {
        return;
      }
      if lastCommit.None? {
        failure := Some(RS.VoteForMissingLastCommit);
        return;
      }
      var lc := lastCommit.value;
      if vote.round != lc.round {
        return;
      }
      var (vs, added) := AddVoteToSet(lc.votes, lc.voters, vote.voter, vote.id);
      lastCommit := Some(lc.(votes := vs));
      if !added {
        return;
      }
      if env.skipTimeoutCommit && HasAll(vs, lc.voters) {
        EnterNewRound(env, height, 0, w);
      }
    }

    method MarkValid()
      modifies this`validRound, this`validBlock
      ensures View() == old(View()).(validRound := round, validBlock := proposalBlock)
    {
      validRound, validBlock := round, proposalBlock;
    }

    method PolkaSeen(polRound: nat, id: BlockID, ghost w: World)
      modifies this
      ensures View() == RS.OnPolka(old(View()), polRound, id)
      ensures Sound(old(View()), chain, w) && Prevotes(old(votes), polRound).maj23 == Some(id) ==>
        Sound(View(), chain, w) && Follows(old(View()), View())
        && UnlocksForPolka(old(View()), View(), polRound) && failure == old(failure)
        && ValidForPolka(old(View()), View(), polRound, id)
    {
      hide NodeOK, ChainOK;
      if Sound(View(), chain, w) && Prevotes(votes, polRound).maj23 == Some(id) {
        OnPolkaOK(View(), w, polRound);
      }
      if lockedBlock.Some? && lockedRound < polRound && polRound <= round && !HashesTo(lockedBlock, id) {
        ClearLock();
      }
      if id.BlockID? && validRound < polRound && polRound == round {
        if HashesTo(proposalBlock, id) {
          MarkValid();
        } else {
          proposalBlock := None;
        }
        if !RS.HasHeader(proposalParts, id.parts) {
          proposalParts := Some(RS.PartSet(id.parts, false));
        }
      }
    }

    method AddedPrevote(env: RS.Env, voteRound: nat, ghost w: World)
      modifies this
      ensures View() == RS.OnPrevote(old(View()), env, voteRound)
      ensures Sound(old(View()), chain, w) ==>
        Sound(View(), chain, w) && Follows(old(View()), View())
        && (old(failure).None? && HasTwoThirdsAny(Prevotes(old(votes), voteRound), old(voters)) ==> round >= voteRound)
    {
      hide NodeOK, ChainOK, RS.EnterNewRound, RS.EnterPrevote, RS.EnterPrecommit, RS.EnterPrevoteWait;
      if Sound(View(), chain, w) {
        OnPrevoteOK(View(), w, env, voteRound);
      }
      var prevotes := Prevotes(votes, voteRound);
      if prevotes.maj23.Some? {
        PolkaSeen(voteRound, prevotes.maj23.value, w);
      }
      if round < voteRound && HasTwoThirdsAny(prevotes, voters) {
        EnterNewRound(env, height, voteRound, w);
      } else if round == voteRound && RS.STEP_PREVOTE <= step {
        if prevotes.maj23.Some? && (ProposalComplete() || prevotes.maj23.value.NilBlock?) {
          EnterPrecommit(env, height, voteRound, w);
        } else if HasTwoThirdsAny(prevotes, voters) {
          EnterPrevoteWait(height, voteRound, w);
        }
      } else if proposal.Some? && 0 <= proposal.value.polRound && proposal.value.polRound == voteRound {
        if ProposalComplete() {
          EnterPrevote(env, height, round, w);
        }
      }
    }

    method AddedPrecommit(env: RS.Env, voteRound: nat, ghost w: World)
      modifies this
      ensures View() == RS.OnPrecommit(old(View()), chain, env, voteRound)
      ensures Sound(old(View()), chain, w) && old(failure).None? ==>
        Sound(View(), chain, w) && Follows(old(View()), View())
        && (CommitsBlock(old(votes), voteRound) ==> ReachesCommit(old(View()), View()))
    {
      hide NodeOK, ChainOK, RS.EnterNewRound, RS.EnterPrecommit, RS.EnterCommit, RS.EnterPrecommitWait;
      if Sound(View(), chain, w) && failure.None? {
        OnPrecommitOK(View(), w, env, voteRound);
      }
      var h, vs := height, voters;
      var precommits := Precommits(votes, voteRound);
      if precommits.maj23.Some? {
        EnterNewRound(env, h, voteRound, w);
        EnterPrecommit(env, h, voteRound, w);
        if precommits.maj23.value.BlockID? {
          EnterCommit(env, h, voteRound, w);
          if env.skipTimeoutCommit && HasAll(precommits, vs) {
            EnterNewRound(env, height, 0, w);
          }
        } else {
          EnterPrecommitWait(h, voteRound, w);
        }
      } else if round <= voteRound && HasTwoThirdsAny(precommits, voters) {
        EnterNewRound(env, h, voteRound, w);
        EnterPrecommitWait(h, voteRound, w);
      }
    }

    method HandleTimeout(env: RS.Env, t: RS.Timeout, ghost w: World)
      modifies this
      ensures View() == RS.HandleTimeout(old(View()), env, t)
      ensures Sound(old(View()), chain, w) && (t in old(timeouts) || t.round == 0) ==>
        Sound(View(), chain, w) && Follows(old(View()), View())
    {
      hide NodeOK, ChainOK, RS.EnterNewRound, RS.EnterPropose, RS.EnterPrevote, RS.EnterPrecommit;
      if Sound(View(), chain, w) && (t in timeouts || t.round == 0) {
        HandleTimeoutOK(View(), w, env, t);
      }
      if t.height != height || t.round < round || (t.round == round && t.step < step) {
        return;
      }
      if t.step == RS.STEP_NEW_HEIGHT {
        EnterNewRound(env, t.height, 0, w);
      } else if t.step == RS.STEP_NEW_ROUND {
        EnterPropose(env, t.height, 0, w);
      } else if t.step == RS.STEP_PROPOSE {
        EnterPrevote(env, t.height, t.round, w);
      } else if t.step == RS.STEP_PREVOTE_WAIT {
        EnterPrecommit(env, t.height, t.round, w);
      } else if t.step == RS.STEP_PRECOMMIT_WAIT {
        EnterPrecommit(env, t.height, t.round, w);
        EnterNewRound(env, t.height, t.round + 1, w);
      }
    }

    method HandleTxsAvailable(env: RS.Env, needProofBlock: bool, ghost w: World)
      modifies this
      ensures View() == RS.HandleTxsAvailable(old(View()), env, needProofBlock)
      ensures Sound(old(View()), chain, w) ==>
        Sound(View(), chain, w) && Follows(old(View()), View()) && failure == old(failure)
    {
      hide NodeOK, ChainOK;
      if Sound(View(), chain, w) {
        HandleTxsAvailableOK(View(), w, env, needProofBlock);
      }
      if round != 0 {
        return;
      }
      if step == RS.STEP_NEW_HEIGHT {
        if needProofBlock || decisions == [] {
          return;
        }
        ScheduleTimeout(height, 0, RS.STEP_NEW_ROUND);
      } else if step == RS.STEP_NEW_ROUND {
        EnterPropose(env, height, 0, w);
      }
    }

    /** One turn of the receive routine. It keeps the node invariant, so the quorum panics
        never fire and the position never goes back. */
    method HandleMsg(env: RS.Env, input: RS.Input, ghost w: World)
      requires Sound(View(), chain, w) && Expected(View(), w.cast, input)
      modifies this
      ensures View() == RS.Handle(old(View()), chain, env, input)
      ensures Sound(View(), chain, w) && Follows(old(View()), View())
    {
      hide NodeOK, ChainOK;
      HandleOK(View(), w, env, input);
      if failure.Some? {
        return;
      }
      match input
      case VoteInput(vote, peer) => AddVoteMessage(env, vote, peer, w);
      case ProposalInput(h, r, p) => SetProposal(h, r, p, w);
      case BlockPartInput(h, complete, block) => AddProposalBlockPart(env, h, complete, block, w);
      case TimeoutInput(t) => HandleTimeout(env, t, w);
      case TxsAvailableInput(need) => HandleTxsAvailable(env, need, w);
      case Maj23Input(kind, r, peer, id) => votes := ClaimMaj23(votes, kind, r, peer, id);
    }
  }
}
