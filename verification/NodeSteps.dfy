/** What a node does about each kind of input, in both directions: when it moves, votes,
    waits, takes a proposal or a block, and when it does not. */
module NodeSteps {
  import opened Collections
  import opened Quorum
  import opened VoteSets
  import opened RoundStates
  import opened NodeInvariant

  // ------------------------------------------------------------------------- rounds

  /** The round is ahead, or it is the one the node waits for. */
  predicate CanEnter(s: RoundState, height: int, round: nat) {
    && s.failure.None? && s.height == height
    && (s.round < round || (s.round == round && s.step == STEP_NEW_HEIGHT))
  }

  predicate SameProposal(a: RoundState, b: RoundState) {
    b.proposal == a.proposal && b.proposalBlock == a.proposalBlock && b.proposalParts == a.proposalParts
  }

  predicate NoProposal(s: RoundState) {
    s.proposal.None? && s.proposalBlock.None? && s.proposalParts.None?
  }

  predicate OneMoreVote(a: RoundState, b: RoundState) {
    |b.signed| == |a.signed| + 1
  }

  /** A round ahead is entered without the proposal of an earlier one, round 0 with one that
      came early. The node votes at once if it can, waits for transactions in round 0 of all
      heights but the first if configured so, and else waits for the proposal. */
  lemma NewRoundEntered(s: RoundState, env: Env, height: int, round: nat)
    requires CanSetRound(s.votes, round + 1)
    ensures var s' := EnterNewRound(s, env, height, round);
      if !CanEnter(s, height, round) then s' == s
      else
        && s'.round == round && s'.votes.round == round + 1 && !s'.triggeredTimeoutPrecommit
        && (if round == 0 then SameProposal(s, s') else NoProposal(s'))
        && (s'.step == STEP_NEW_ROUND <==> env.waitForTxs && round == 0 && s.decisions != [])
        && (s'.step != STEP_NEW_ROUND ==> Timeout(height, round, STEP_PROPOSE) in s'.timeouts)
        && (s'.step == STEP_NEW_ROUND ==>
              s'.timeouts == s.timeouts + if env.emptyBlocksInterval then {Timeout(height, 0, STEP_NEW_ROUND)} else {})
        && (OneMoreVote(s, s') <==> s'.step != STEP_NEW_ROUND && round == 0 && CanPrevote(s))
        && (s'.signed == s.signed || OneMoreVote(s, s'))
  {
    hide EnterPropose, TrackRounds;
    SetRoundSame(s.votes, round + 1);
    if CanEnter(s, height, round) {
      var s1 := StartRound(s, round);
      if s.proposal.Some? {
        var polRound := s.proposal.value.polRound;
        assert SetOf(SetRound(s.votes, round + 1), Prevote, polRound) == SetOf(s.votes, Prevote, polRound);
      }
      ProposeEntered(s1, env, round);
    }
  }

  lemma ProposeEntered(s: RoundState, env: Env, round: nat)
    requires s.failure.None? && s.round == round && s.step == STEP_NEW_ROUND
    ensures var s' := EnterPropose(s, env, s.height, round);
      && SameProposal(s, s') && s'.round == round && s'.votes == s.votes
      && s'.triggeredTimeoutPrecommit == s.triggeredTimeoutPrecommit
      && Timeout(s.height, round, STEP_PROPOSE) in s'.timeouts && Proposes(s, s')
      && (s'.signed == s.signed || OneMoreVote(s, s'))
  {
    hide PrevoteChoice;
  }

  /** With +2/3 prevotes of any kind the node waits for more of them, once per round. */
  lemma PrevoteWaitEntered(s: RoundState, height: int, round: nat)
    requires s.round == round && HasTwoThirdsAny(Prevotes(s.votes, round), s.voters)
    ensures var s' := EnterPrevoteWait(s, height, round);
      if s.failure.None? && s.height == height && s.step < STEP_PREVOTE_WAIT
      then s'.step == STEP_PREVOTE_WAIT && s'.timeouts == s.timeouts + {Timeout(height, round, STEP_PREVOTE_WAIT)}
      else s' == s
  {
  }

  /** With +2/3 precommits of any kind the node waits for more of them, once per round. */
  lemma PrecommitWaitEntered(s: RoundState, height: int, round: nat)
    requires s.round == round && HasTwoThirdsAny(Precommits(s.votes, round), s.voters)
    ensures var s' := EnterPrecommitWait(s, height, round);
      if s.failure.None? && s.height == height && !s.triggeredTimeoutPrecommit
      then
        && s'.triggeredTimeoutPrecommit && s'.step == s.step
        && s'.timeouts == s.timeouts + {Timeout(height, round, STEP_PRECOMMIT_WAIT)}
      else s' == s
  {
  }

  // ---------------------------------------------------------------------- committing

  /** The block with this id is at hand and complete: locked with the right parts, or
      proposed with them if another block or none is locked. */
  predicate Complete(s: RoundState, id: BlockID)
    requires id.BlockID?
  {
    if s.lockedBlock == Some(id.hash) then s.lockedParts == id.parts
    else s.proposalBlock == Some(id.hash) && s.proposalParts.Some? && s.proposalParts.value.header == id.parts
  }

  /** What a node in the commit step does: the block of the commit round is finalized if
      it is the proposal block, complete, validates and can be applied. */
  lemma FinalizeTried(s: RoundState, chain: Chain, env: Env)
    requires s.failure.None? && s.step == STEP_COMMIT && s.commitRound >= 0
    requires Precommits(s.votes, s.commitRound).maj23.Some? && Precommits(s.votes, s.commitRound).maj23.value.BlockID?
    ensures var id := Precommits(s.votes, s.commitRound).maj23.value;
      var s' := TryFinalizeCommit(s, chain, env, s.height);
      var here := s.proposalBlock == Some(id.hash);
      var complete := here && s.proposalParts.Some? && s.proposalParts.value.header == id.parts;
      && (s'.failure == (
            if here && !complete then Some(FinalizeWrongParts)
            else if complete && !env.validBlock(s.commitRound, id.hash) then Some(CommitOfInvalidBlock) else None))
      && (if complete && env.validBlock(s.commitRound, id.hash) && env.applyBlock
          then
            && s'.decisions == s.decisions + [Decision(id, s.commitRound, s.votes)]
            && s'.lastCommit == Some(LastCommit(s.commitRound, Precommits(s.votes, s.commitRound), s.voters))
            && Timeout(s'.height, 0, STEP_NEW_HEIGHT) in s'.timeouts && NoProposal(s')
          else s' == s.(failure := s'.failure))
  {
  }

  /** What becomes of +2/3 precommits for a block: it is finalized if and only if it is at
      hand and complete, validates and can be applied; a block at hand with other parts, or
      one that does not validate, stops the node; and one that is not at hand is awaited. */
  lemma CommitEntered(s: RoundState, chain: Chain, env: Env, commitRound: nat)
    requires s.failure.None? && s.step < STEP_COMMIT
    requires Precommits(s.votes, commitRound).maj23.Some? && Precommits(s.votes, commitRound).maj23.value.BlockID?
    ensures var id := Precommits(s.votes, commitRound).maj23.value;
      var s' := EnterCommit(s, chain, env, s.height, commitRound);
      && (s'.decisions == (
            if Complete(s, id) && env.validBlock(commitRound, id.hash) && env.applyBlock
            then s.decisions + [Decision(id, commitRound, s.votes)] else s.decisions))
      && (s'.failure == (
            if AtHand(s, id) && !Complete(s, id) then Some(FinalizeWrongParts)
            else if Complete(s, id) && !env.validBlock(commitRound, id.hash) then Some(CommitOfInvalidBlock)
            else None))
      && (s'.decisions == s.decisions ==>
            && s'.step == STEP_COMMIT && s'.commitRound == commitRound && s'.round == s.round
            && (!AtHand(s, id) ==> Awaits(s, s', id)))
      && (s'.decisions != s.decisions ==>
            && s'.lastCommit == Some(LastCommit(commitRound, Precommits(s.votes, commitRound), s.voters))
            && Timeout(s'.height, 0, STEP_NEW_HEIGHT) in s'.timeouts && NoProposal(s'))
  {
    hide TryFinalizeCommit;
    var id := Precommits(s.votes, commitRound).maj23.value;
    var s1 := if s.lockedBlock == Some(id.hash)
              then s.(proposalBlock := s.lockedBlock, proposalParts := Some(PartSet(s.lockedParts, true))) else s;
    var s2 := if AtHand(s1, id) || HasHeader(s1.proposalParts, id.parts) then s1
              else s1.(proposalBlock := None, proposalParts := Some(PartSet(id.parts, false)));
    var s3 := s2.(step := STEP_COMMIT, commitRound := commitRound);
    FinalizeTried(s3, chain, env);
  }

  /** A late precommit is kept with the last commit of its round, as long as the node waits
      for the next height; the last one cuts the wait short if configured so. */
  lemma LateVoteKept(s: RoundState, env: Env, vote: Vote)
    requires s.failure.None? && s.lastCommit.Some? && CanSetRound(s.votes, 1) && s.round == 0
    ensures var s', lc := AddLastCommitVote(s, env, vote), s.lastCommit.value;
      if s.step != STEP_NEW_HEIGHT || vote.round != lc.round then s' == s
      else
        && s'.lastCommit == Some(lc.(votes := AddVoteToSet(lc.votes, lc.voters, vote.voter, vote.id).0))
        && (s'.step != STEP_NEW_HEIGHT <==>
              && env.skipTimeoutCommit && AddVoteToSet(lc.votes, lc.voters, vote.voter, vote.id).1
              && s'.lastCommit.value.votes.sum == TotalWeight(lc.voters))
        && (s'.step == STEP_NEW_HEIGHT ==> s' == s.(lastCommit := s'.lastCommit))
  {
    hide AddVoteToSet, PrevoteChoice, SetRound, TotalWeight;
  }

  // ----------------------------------------------------------------------- proposals

  /** A proposal is taken if and only if it is the first one of the node's height and round
      and names no round from its own on. */
  lemma ProposalTaken(s: RoundState, height: int, round: nat, proposal: Proposal)
    ensures var s' := HandleProposal(s, height, round, proposal);
      if && s.proposal.None? && height == s.height && round == s.round
         && -1 <= proposal.polRound && proposal.polRound < round as int + (if proposal.polRound < 0 then 1 else 0)
      then s' == s.(proposal := Some(proposal), proposalParts :=
             if s.proposalParts.None? then Some(PartSet(proposal.parts, false)) else s.proposalParts)
      else s' == s
  {
  }

  /** The last part that was awaited. */
  predicate LastPart(s: RoundState, height: int, complete: bool) {
    height == s.height && complete && s.proposalParts.Some? && !s.proposalParts.value.complete
  }

  function WithParts(s: RoundState, block: Option<int>): RoundState
    requires s.proposalParts.Some?
  {
    s.(proposalParts := Some(PartSet(s.proposalParts.value.header, true)),
       proposalBlock := if block.Some? then block else s.proposalBlock)
  }

  /** All parts but the last one are only collected; the last one completes the proposal. */
  lemma LastPartTaken(s: RoundState, chain: Chain, env: Env, height: int, complete: bool, block: Option<int>)
    ensures HandleBlockPart(s, chain, env, height, complete, block) ==
      if LastPart(s, height, complete) then HandleCompleteProposal(WithParts(s, block), chain, env, height) else s
  {
    hide HandleCompleteProposal;
  }

  /** The proposal block becomes the valid one if the round has a polka for it. A node that
      can now vote does so, and answers the polka of its round if there is one; a node that
      waits for the block to commit finalizes it if it is the right one. */
  lemma BlockComplete(s: RoundState, w: World, env: Env)
    requires NodeOK(s, w) && s.failure.None?
    ensures var s' := HandleCompleteProposal(s, w.chain, env, s.height);
      var s1, polka := Validated(s), Prevotes(s.votes, s.round).maj23;
      if s.step <= STEP_PROPOSE && CanPrevote(s) then
        && |s'.signed| > |s.signed| && s'.signed[|s.signed|].vote.kind.Prevote?
        && s'.step == (if polka.Some? then STEP_PRECOMMIT else STEP_PREVOTE)
        && s'.validRound == s1.validRound && s'.validBlock == s1.validBlock
      else if s.step == STEP_COMMIT then s'.decisions != s.decisions <==> Finalizable(s, env)
      else s' == s1
  {
    hide NodeOK;
    NodeFacts(s, w);
    if s.step <= STEP_PROPOSE && CanPrevote(s) {
      CompleteVotes(Validated(s), env);
      hide EnterPrevote, EnterPrecommit;
    } else if s.step == STEP_COMMIT {
      hide TryFinalizeCommit;
      CommitFacts(s, w);
      FinalizeTried(Validated(s), w.chain, env);
    }
  }

  /** The proposal block, made valid by the polka of its round. */
  function Validated(s: RoundState): RoundState {
    var polka := Prevotes(s.votes, s.round).maj23;
    if polka.Some? && polka.value.BlockID? && s.validRound < s.round && HashesTo(s.proposalBlock, polka.value)
    then s.(validRound := s.round, validBlock := s.proposalBlock) else s
  }

  lemma CompleteVotes(s: RoundState, env: Env)
    requires s.failure.None? && s.step <= STEP_PROPOSE && s.votes.round >= s.round
    ensures var s2 := EnterPrevote(s, env, s.height, s.round);
      && |s2.signed| == |s.signed| + 1 && s2.signed[|s.signed|].vote.kind.Prevote? && s2.step == STEP_PREVOTE
      && s2 == s.(signed := s2.signed, step := s2.step)
      && var s3 := EnterPrecommit(s2, env, s.height, s2.round);
      (Prevotes(s.votes, s.round).maj23.Some? ==>
         s3.step == STEP_PRECOMMIT && s2.signed <= s3.signed && s3.validRound == s.validRound
         && s3.validBlock == s.validBlock)
  {
    hide PrevoteChoice;
    assert Prevotes(s.votes, s.round).maj23.Some? ==> POLRound(s.votes, s.votes.round) >= s.round;
  }

  // -------------------------------------------------------------------------- votes

  /** A vote of the node's height is added to its votes, and is acted upon with those of its
      type and round if it counts. Of other heights only precommits for the one below are
      looked at. */
  lemma VoteHandled(s: RoundState, chain: Chain, env: Env, vote: Vote, peer: nat)
    ensures var s', (votes, added) := HandleVote(s, chain, env, vote, peer), AddVote(s.votes, s.voters, vote, peer);
      var s1 := s.(votes := votes);
      if vote.height == s.height then
        && (!added ==> s' == s1)
        && (added && vote.kind == Prevote ==> s' == OnPrevote(s1, env, vote.round))
        && (added && vote.kind == Precommit ==> s' == OnPrecommit(s1, chain, env, vote.round))
      else if vote.kind == Precommit && vote.height + 1 == s.height then s' == AddLastCommitVote(s, env, vote)
      else s' == s
  {
    hide AddVote, OnPrevote, OnPrecommit, AddLastCommitVote;
  }

  /** +2/3 prevotes of a later round take the node there; fewer do not. */
  lemma PrevoteAhead(s: RoundState, w: World, env: Env, round: nat)
    requires NodeOK(s, w) && s.failure.None? && s.round < round
    ensures var s', prevotes := OnPrevote(s, env, round), Prevotes(s.votes, round);
      s'.round == (if HasTwoThirdsAny(prevotes, s.voters) then round else s.round)
  {
    hide NodeOK, OnPolka, EnterNewRound, EnterPrevote, UnlocksForPolka, ValidForPolka;
    var prevotes := Prevotes(s.votes, round);
    if prevotes.maj23.Some? {
      OnPolkaOK(s, w, round);
    }
    var s1 := if prevotes.maj23.Some? then OnPolka(s, round, prevotes.maj23.value) else s;
    EnterNewRoundOK(s1, w, env, s1.height, round);
    EnterPrevoteOK(s1, w, env, s1.height, s1.round);
  }

  /** The first polka of the round is for another block than the proposed one. */
  predicate Displaced(s: RoundState, id: BlockID) {
    id.BlockID? && s.validRound < s.round && s.proposalBlock != Some(id.hash)
  }

  /** The prevotes of the node's own round, once it has voted: a polka for nil, or one
      that does not displace the proposal, leads to a precommit, other +2/3 to the wait, and fewer to nothing. */
  lemma PrevoteNow(s: RoundState, w: World, env: Env)
    requires NodeOK(s, w) && s.failure.None? && STEP_PREVOTE <= s.step < STEP_PRECOMMIT
    ensures var s', prevotes := OnPrevote(s, env, s.round), Prevotes(s.votes, s.round);
      var polka := prevotes.maj23;
      if polka.Some? && (polka.value.NilBlock? || (CanPrevote(s) && !Displaced(s, polka.value)))
      then s'.step == STEP_PRECOMMIT
      else if HasTwoThirdsAny(prevotes, s.voters) then s'.step == STEP_PREVOTE_WAIT && s'.signed == s.signed
      else s' == s
  {
    hide NodeOK, OnPolka, EnterPrecommit, PrecommitsRightly, VoteSetOK;
    var prevotes := Prevotes(s.votes, s.round);
    var polka := prevotes.maj23;
    NodeFacts(s, w);
    assert prevotes == SetOf(s.votes, Prevote, s.round);
    if polka.Some? {
      MajorityIsTwoThirdsAny(prevotes, s.voters);
      OnPolkaOK(s, w, s.round);
      var s1 := OnPolka(s, s.round, polka.value);
      PolkaQuiet(s, s.round, polka.value);
      EnterPrecommitOK(s1, w, env, s1.height, s1.round);
    }
  }

  lemma PolkaQuiet(s: RoundState, round: nat, id: BlockID)
    ensures OnPolka(s, round, id).signed == s.signed && OnPolka(s, round, id).proposal == s.proposal
  {
  }

  /** Prevotes of a round up to the node's, before it has voted: they let it vote if the
      proposal names that round, and is now complete. */
  lemma PrevoteBefore(s: RoundState, w: World, env: Env, round: nat)
    requires NodeOK(s, w) && s.failure.None? && s.step < STEP_PREVOTE && round <= s.round
    ensures var s', prevotes := OnPrevote(s, env, round), Prevotes(s.votes, round);
      if round < s.round && CanPrevote(s) && s.proposal.value.polRound == round
      then s'.step == STEP_PREVOTE && OneMoreVote(s, s')
      else round < s.round ==> s'.step == s.step && s'.signed == s.signed
  {
    hide NodeOK, PrevoteChoice;
  }

  /** +2/3 precommits for nil take the node to their round, where it precommits and waits;
      +2/3 of any kind take it there, unless it is past that round, and it waits. */
  lemma PrecommitMoves(s: RoundState, w: World, env: Env, round: nat)
    requires ChainOK(w.chain) && NodeOK(s, w) && s.failure.None?
    ensures var s', precommits := OnPrecommit(s, w.chain, env, round), Precommits(s.votes, round);
      if precommits.maj23.None? && (s.round > round || !HasTwoThirdsAny(precommits, s.voters)) then s' == s
      else if precommits.maj23.None? then
        && s'.round == round && s'.triggeredTimeoutPrecommit
        && (s.round == round && s.step != STEP_NEW_HEIGHT ==> s'.step == s.step)
      else if precommits.maj23.value.NilBlock? && s.round <= round then
        s'.failure.Some? || (s'.round == round && s'.step >= STEP_PRECOMMIT && s'.triggeredTimeoutPrecommit)
      else precommits.maj23.value.NilBlock? ==> s' == s
  {
    hide NodeOK, EnterNewRound, EnterPrecommit, EnterCommit, VoteSetOK, PrecommitsRightly;
    NodeFacts(s, w);
    var precommits := Precommits(s.votes, round);
    assert precommits == SetOf(s.votes, Precommit, round);
    EnterNewRoundOK(s, w, env, s.height, round);
    NewRoundKept(s, w, env, round);
    var s1 := EnterNewRound(s, env, s.height, round);
    assert Precommits(s1.votes, round) == SetOf(s1.votes, Precommit, round);
    if precommits.maj23.Some? && precommits.maj23.value.NilBlock? {
      MajorityIsTwoThirdsAny(precommits, s.voters);
      NodeFacts(s1, w);
      if s.round <= round {
        EnterPrecommitOK(s1, w, env, s.height, round);
      } else {
        Past(s, env, round);
      }
    }
  }

  /** Nothing is done for a round that is past. */
  lemma Past(s: RoundState, env: Env, round: nat)
    requires round < s.round
    ensures EnterNewRound(s, env, s.height, round) == s == EnterPrecommit(s, env, s.height, round)
    ensures EnterPrecommitWait(s, s.height, round) == s
  {
  }

  lemma NewRoundKept(s: RoundState, w: World, env: Env, round: nat)
    requires NodeOK(s, w) && s.failure.None?
    ensures !CanEnter(s, s.height, round) ==> EnterNewRound(s, env, s.height, round) == s
  {
    NodeFacts(s, w);
  }

  // ----------------------------------------------------------------- timeouts and news

  /** A timeout that is not for the step the node is in, or a later one, of its height and
      round does nothing. */
  predicate Stale(s: RoundState, t: Timeout) {
    t.height != s.height || t.round < s.round || (t.round == s.round && t.step < s.step)
  }

  /** Every other timeout that was scheduled takes the node past the step it waits in. */
  lemma TimeoutMoves(s: RoundState, w: World, env: Env, t: Timeout)
    requires NodeOK(s, w) && s.failure.None? && (t in s.timeouts || t.round == 0)
    ensures var s' := HandleTimeout(s, env, t);
      if Stale(s, t) then s' == s
      else
        && t.round == s.round
        && (t.step == STEP_NEW_HEIGHT && t.round == 0 ==> s'.step >= STEP_NEW_ROUND)
        && (t.step == STEP_NEW_ROUND && t.round == 0 ==> s'.step >= STEP_PROPOSE)
        && (t.step == STEP_PROPOSE ==> s'.step == STEP_PREVOTE && OneMoreVote(s, s') && s'.round == s.round)
        && (t.step == STEP_PREVOTE_WAIT ==> s'.step == STEP_PRECOMMIT && PrecommitsRightly(s, s', env))
        && (t.step == STEP_PRECOMMIT_WAIT ==> s'.failure.Some? || s'.round == s.round + 1)
        && (t.step !in {STEP_NEW_HEIGHT, STEP_NEW_ROUND, STEP_PROPOSE, STEP_PREVOTE_WAIT, STEP_PRECOMMIT_WAIT} ==>
              s' == s)
  {
    hide NodeOK, EnterNewRound, EnterPropose, EnterPrevote, EnterPrecommit, PrecommitsRightly, PrevotesRightly;
    if !Stale(s, t) {
      TimeoutFacts(s, w, t);
      NodeFacts(s, w);
      if t.step == STEP_NEW_HEIGHT {
        EnterNewRoundOK(s, w, env, t.height, 0);
        if t.round == 0 {
          RoundBegun(s, w, env);
        }
      } else if t.step == STEP_NEW_ROUND {
        EnterProposeOK(s, w, env, t.height, 0);
      } else if t.step == STEP_PROPOSE {
        EnterPrevoteOK(s, w, env, t.height, t.round);
      } else {
        EnterPrecommitOK(s, w, env, t.height, t.round);
        EnterNewRoundOK(EnterPrecommit(s, env, t.height, t.round), w, env, t.height, t.round + 1);
      }
    }
  }

  lemma RoundBegun(s: RoundState, w: World, env: Env)
    requires NodeOK(s, w) && s.failure.None? && s.round == 0
    ensures EnterNewRound(s, env, s.height, 0).step >= STEP_NEW_ROUND
  {
    assert CanSetRound(s.votes, 1);
    NewRoundEntered(s, env, s.height, 0);
    hide EnterNewRound;
  }

  /** News of transactions ends the wait for them, or schedules its end; it does nothing in
      later rounds or steps. */
  lemma NewsMoves(s: RoundState, env: Env, need: bool)
    requires s.failure.None?
    ensures var s' := HandleTxsAvailable(s, env, need);
      if s.round == 0 && s.step == STEP_NEW_ROUND then s'.step >= STEP_PROPOSE
      else if s.round == 0 && s.step == STEP_NEW_HEIGHT && !need && s.decisions != []
      then s' == s.(timeouts := s.timeouts + {Timeout(s.height, 0, STEP_NEW_ROUND)})
      else s' == s
  {
    hide PrevoteChoice;
  }

  /** A node that has stopped handles nothing, and a claim changes nothing but vote sets. */
  lemma OtherInputs(s: RoundState, chain: Chain, env: Env, input: Input)
    ensures s.failure.Some? ==> Handle(s, chain, env, input) == s
    ensures input.Maj23Input? && s.failure.None? ==>
      Handle(s, chain, env, input) == s.(votes := ClaimMaj23(s.votes, input.kind, input.round, input.peer, input.id))
  {
    hide HandleVote, HandleProposal, HandleBlockPart, HandleTimeout, HandleTxsAvailable, ClaimMaj23;
  }
}
