/** What holds of a consensus node in every state it can reach, whatever it receives. */
module NodeInvariant {
  import opened Collections
  import opened Quorum
  import opened VoteSets
  import opened RoundStates

  /** Every voter set lists each address once. */
  ghost predicate ChainOK(chain: Chain) {
    forall c: seq<int> :: Distinct(chain.votersAfter(c))
  }

  /** The voter set of height `h`, given the blocks finalized below it. */
  ghost function VotersAt(decisions: seq<Decision>, chain: Chain, h: int): VoterSet
    requires 0 <= h - chain.initialHeight <= |decisions|
  {
    chain.votersAfter(Hashes(decisions[..h - chain.initialHeight]))
  }

  // ------------------------------------------------------------------ polkas

  /** +2/3 prevotes of round `r` went to something else than block `b`. */
  ghost predicate PolkaNot(votes: HeightVoteSet, r: int, b: int) {
    Prevotes(votes, r).maj23.Some? && !HashesTo(Some(b), Prevotes(votes, r).maj23.value)
  }

  ghost predicate PolkaNotBetween(votes: HeightVoteSet, b: int, low: int, high: int) {
    exists r :: low < r <= high && PolkaNot(votes, r, b)
  }

  ghost predicate PolkaFor(votes: HeightVoteSet, r: int, b: Option<int>) {
    Prevotes(votes, r).maj23.Some? && HashesTo(b, Prevotes(votes, r).maj23.value)
  }

  // ---------------------------------------------------------- ordering of votes

  function StepOf(kind: VoteType): int {
    if kind.Prevote? then STEP_PREVOTE else STEP_PRECOMMIT
  }

  predicate HRSLess(h1: int, r1: int, s1: int, h2: int, r2: int, s2: int) {
    h1 < h2 || (h1 == h2 && (r1 < r2 || (r1 == r2 && s1 < s2)))
  }

  predicate HRSAtMost(h1: int, r1: int, s1: int, h2: int, r2: int, s2: int) {
    HRSLess(h1, r1, s1, h2, r2, s2) || (h1 == h2 && r1 == r2 && s1 == s2)
  }

  predicate VoteLess(a: Vote, b: Vote) {
    HRSLess(a.height, a.round, StepOf(a.kind), b.height, b.round, StepOf(b.kind))
  }

  /** The vote has been cast at or before the node's height, round and step. */
  predicate CastBy(v: Vote, s: RoundState) {
    v.voter == s.self && HRSAtMost(v.height, v.round, StepOf(v.kind), s.height, s.round, s.step)
  }

  // --------------------------------------------------------------- the invariant

  ghost predicate PositionOK(s: RoundState, chain: Chain) {
    && s.height == chain.initialHeight + |s.decisions|
    && s.voters == chain.votersAfter(Hashes(s.decisions))
    && STEP_NEW_HEIGHT <= s.step <= STEP_COMMIT
    && HeightVoteSetOK(s.votes, s.voters)
    && (s.votes.round == s.round + 1 || s.votes.round == s.round == 0)
    && (s.lastCommit.None? <==> s.height == chain.initialHeight)
    && (s.lastCommit.Some? ==> LastCommitOK(s.lastCommit.value))
  }

  ghost predicate LastCommitOK(lc: LastCommit) {
    Distinct(lc.voters) && VoteSetOK(lc.votes, lc.voters)
  }

  /** Locks, valid blocks and commits rest on majorities of rounds reached. */
  ghost predicate BlocksOK(s: RoundState) {
    && (s.lockedBlock.Some? <==> s.lockedRound >= 0)
    && -1 <= s.lockedRound <= s.round
    && (s.lockedRound == s.round ==> s.step >= STEP_PRECOMMIT)
    && (s.lockedRound >= 0 ==> PolkaFor(s.votes, s.lockedRound, s.lockedBlock))
    && (s.validBlock.Some? <==> s.validRound >= 0)
    && -1 <= s.validRound <= s.round
    && (s.validRound >= 0 ==> PolkaFor(s.votes, s.validRound, s.validBlock))
    && -1 <= s.commitRound
    && (s.step == STEP_COMMIT ==> s.commitRound >= 0)
    && (s.commitRound >= 0 ==> Precommits(s.votes, s.commitRound).maj23.Some?
                               && Precommits(s.votes, s.commitRound).maj23.value.BlockID?)
  }

  ghost predicate TimeoutsOK(s: RoundState) {
    forall t | t in s.timeouts :: t.height < s.height || (t.height == s.height && t.round <= s.round)
  }

  /** The panics that guard quorum assumptions have not fired. */
  ghost predicate FailureOK(s: RoundState) {
    s.failure.Some? ==>
      s.failure.value in {FinalizeWrongParts, PolkaForInvalidBlock, CommitOfInvalidBlock, VoteForMissingLastCommit}
  }

  /** After a precommit for `b` in round `r` the node stays locked on `b`, or it has
      seen a later polka for something else. */
  ghost predicate Guarded(s: RoundState, r: int, b: int) {
    (s.lockedRound >= r && s.lockedBlock == Some(b)) || PolkaNotBetween(s.votes, b, r, s.round)
  }

  ghost predicate SignedOK(s: RoundState) {
    && (forall k | 0 <= k < |s.signed| :: CastBy(s.signed[k].vote, s))
    && (forall j, k | 0 <= j < k < |s.signed| :: VoteLess(s.signed[j].vote, s.signed[k].vote))
    && (forall k | 0 <= k < |s.signed| ::
          var v := s.signed[k].vote;
          v.height == s.height && v.kind.Precommit? && v.id.BlockID? ==> Guarded(s, v.round, v.id.hash))
  }

  /** Why a vote was allowed, in terms of the votes the node had when it signed:
      a precommit for a block follows a polka for it in that round; a prevote against
      an earlier precommit follows a polka in between. */
  ghost predicate Justified(signed: seq<SignRequest>, k: nat)
    requires k < |signed|
  {
    var e := signed[k];
    && (e.vote.kind.Precommit? && e.vote.id.BlockID? ==>
          Prevotes(e.votes, e.vote.round).maj23 == Some(e.vote.id))
    && (e.vote.kind.Prevote? ==>
          forall j | 0 <= j < k && signed[j].vote.kind.Precommit? && signed[j].vote.id.BlockID?
                     && signed[j].vote.height == e.vote.height
                     && !HashesTo(Some(signed[j].vote.id.hash), e.vote.id) ::
            PolkaNotBetween(e.votes, signed[j].vote.id.hash, signed[j].vote.round, e.vote.round))
  }

  ghost predicate HistoryOK(signed: seq<SignRequest>, decisions: seq<Decision>, chain: Chain) {
    && (forall k | 0 <= k < |signed| :: RequestOK(signed[k], decisions, chain))
    && (forall k | 0 <= k < |signed| :: Justified(signed, k))
    && (forall k | 0 <= k < |decisions| :: DecisionOK(decisions, chain, k))
  }

  ghost predicate RequestOK(e: SignRequest, decisions: seq<Decision>, chain: Chain) {
    && 0 <= e.vote.height - chain.initialHeight <= |decisions|
    && HeightVoteSetOK(e.votes, VotersAt(decisions, chain, e.vote.height))
  }

  /** A finalized block had +2/3 precommits of one round. */
  ghost predicate DecisionOK(decisions: seq<Decision>, chain: Chain, k: nat)
    requires k < |decisions|
  {
    var d := decisions[k];
    && d.id.BlockID? && d.round >= 0
    && Precommits(d.votes, d.round).maj23 == Some(d.id)
    && HeightVoteSetOK(d.votes, VotersAt(decisions, chain, chain.initialHeight + k))
  }

  /** What a node is judged against: the chain, the votes cast so far by anyone, and
      how much of the node's history was there before. */
  datatype World = World(chain: Chain, cast: set<Vote>, signedFrom: nat, decidedFrom: nat)

  /** All the votes the node counts, or counted when it signed or decided since, were cast. */
  ghost predicate FromCast(s: RoundState, w: World) {
    && HeightVoteSetFrom(s.votes, s.height, w.cast)
    && (forall k | w.signedFrom <= k < |s.signed| ::
          HeightVoteSetFrom(s.signed[k].votes, s.signed[k].vote.height, w.cast))
    && (forall k | w.decidedFrom <= k < |s.decisions| ::
          HeightVoteSetFrom(s.decisions[k].votes, w.chain.initialHeight + k, w.cast))
  }

  ghost predicate NodeOK(s: RoundState, w: World) {
    && PositionOK(s, w.chain)
    && BlocksOK(s)
    && TimeoutsOK(s)
    && FailureOK(s)
    && SignedOK(s)
    && HistoryOK(s.signed, s.decisions, w.chain)
    && FromCast(s, w)
  }

  /** From `a` to `b` the position does not go back and history only grows. */
  ghost predicate Follows(a: RoundState, b: RoundState) {
    && HRSAtMost(a.height, a.round, a.step, b.height, b.round, b.step)
    && a.signed <= b.signed && a.decisions <= b.decisions && a.timeouts <= b.timeouts
    && a.self == b.self
  }

  /** A node of this chain that keeps the invariant. */
  ghost predicate Sound(s: RoundState, chain: Chain, w: World) {
    w.chain == chain && ChainOK(chain) && NodeOK(s, w)
  }

  // ------------------------------------------------------------- what steps may do

  /** Nothing is signed, locked, decided or failed, and height and round stay. */
  ghost predicate OnlyWaits(a: RoundState, b: RoundState) {
    b == a.(step := b.step, timeouts := b.timeouts, triggeredTimeoutPrecommit := b.triggeredTimeoutPrecommit)
  }

  /** At most one vote is signed, a prevote: for the locked block if there is one, else for
      the proposal block if there is one and it validates, else for nil. */
  ghost predicate PrevotesRightly(a: RoundState, b: RoundState, env: Env) {
    && b.failure == a.failure && SameLock(a, b)
    && (b.signed == a.signed || |b.signed| == |a.signed| + 1)
    && (|b.signed| > |a.signed| ==>
          var v := b.signed[|a.signed|].vote;
          && v.kind.Prevote? && v.height == a.height && v.round == a.round
          && (a.lockedBlock.Some? ==> v.id == BlockID(a.lockedBlock.value, a.lockedParts))
          && (a.lockedBlock.None? ==>
                && (v.id.BlockID? <==> a.proposalBlock.Some? && env.validBlock(a.round, a.proposalBlock.value))
                && (v.id.BlockID? ==> v.id.hash == a.proposalBlock.value)
                && (v.id.BlockID? && a.proposalParts.Some? ==> v.id.parts == a.proposalParts.value.header)))
  }

  ghost predicate SameLock(a: RoundState, b: RoundState) {
    b.lockedRound == a.lockedRound && b.lockedBlock == a.lockedBlock && b.lockedParts == a.lockedParts
  }

  /** The proposal is here with its block, and with the polka it names, if it names one. */
  ghost predicate CanPrevote(s: RoundState) {
    && s.proposal.Some? && s.proposalBlock.Some?
    && (s.proposal.value.polRound >= 0 ==> SetOf(s.votes, Prevote, s.proposal.value.polRound).maj23.Some?)
  }

  /** The block of the polka is at hand: locked, or proposed. */
  predicate AtHand(s: RoundState, id: BlockID) {
    id.BlockID? && (s.lockedBlock == Some(id.hash) || s.proposalBlock == Some(id.hash))
  }

  /** ValidateBlock is asked about the block of the polka, and contradicts it. */
  predicate Contradicted(s: RoundState, env: Env, id: BlockID) {
    id.BlockID? && s.lockedBlock != Some(id.hash) && s.proposalBlock == Some(id.hash)
    && !env.validBlock(s.round, id.hash)
  }

  /** What a node in a round does about the prevotes of that round: it panics over a polka
      that ValidateBlock contradicts, precommits the block of any other polka if the block
      is at hand, locking it, and else precommits nil, without a lock if there was a polka. */
  ghost predicate PrecommitsRightly(a: RoundState, b: RoundState, env: Env) {
    var polka := Prevotes(a.votes, a.round).maj23;
    if polka.Some? && Contradicted(a, env, polka.value) then
      b.failure == Some(PolkaForInvalidBlock) && b.signed == a.signed && SameLock(a, b)
    else
      && b.failure == a.failure && |b.signed| == |a.signed| + 1
      && var v := b.signed[|a.signed|].vote;
      && v.kind.Precommit? && v.height == a.height && v.round == a.round
      && (v.id.BlockID? <==> polka.Some? && AtHand(a, polka.value))
      && (v.id.BlockID? ==>
            && polka == Some(v.id) && b.lockedRound == a.round && b.lockedBlock == Some(v.id.hash)
            && (a.lockedBlock == Some(v.id.hash) ==> b.lockedParts == a.lockedParts)
            && (a.lockedBlock != Some(v.id.hash) && a.proposalParts.Some? ==>
                  b.lockedParts == a.proposalParts.value.header))
      && (v.id.NilBlock? && polka.Some? ==> b.lockedBlock.None? && b.lockedRound == -1 && b.lockedParts == 0)
      && (polka.None? ==> SameLock(a, b))
      && (polka.Some? && polka.value.BlockID? && v.id.NilBlock? ==> Awaits(a, b, polka.value))
  }

  /** The node has, or now waits for, the parts of this block, and keeps no other one. */
  predicate Awaits(a: RoundState, b: RoundState, id: BlockID)
    requires id.BlockID?
  {
    if a.proposalParts.Some? && a.proposalParts.value.header == id.parts
    then b.proposalParts == a.proposalParts && b.proposalBlock == a.proposalBlock
    else b.proposalParts == Some(PartSet(id.parts, false)) && b.proposalBlock.None?
  }

  /** The lock is given up if and only if the polka is later than the lock, not of a later
      round than the node's, and for something else. */
  ghost predicate UnlocksForPolka(a: RoundState, b: RoundState, round: int) {
    if a.lockedBlock.Some? && a.lockedRound < round <= a.round && PolkaNot(a.votes, round, a.lockedBlock.value)
    then b.lockedBlock.None? && b.lockedRound == -1 && b.lockedParts == 0
    else SameLock(a, b)
  }

  /** The proposal block becomes the valid one if and only if the polka is for it, of the
      node's round, and the first to make it so; after such a polka for another block the
      node has no proposal block, and has or waits for the parts of that one. */
  ghost predicate ValidForPolka(a: RoundState, b: RoundState, round: int, id: BlockID) {
    var counts := id.BlockID? && round == a.round && a.validRound < round;
    && (if counts && a.proposalBlock == Some(id.hash)
        then b.validRound == round && b.validBlock == Some(id.hash)
        else b.validRound == a.validRound && b.validBlock == a.validBlock)
    && (b.proposalBlock == if counts && a.proposalBlock != Some(id.hash) then None else a.proposalBlock)
    && (if counts && (a.proposalParts.Some? ==> a.proposalParts.value.header != id.parts)
        then b.proposalParts == Some(PartSet(id.parts, false))
        else b.proposalParts == a.proposalParts)
  }

  /** At most one block is finalized: the one with +2/3 precommits of round `r`, proposed,
      complete and valid; the node then waits at the next height. */
  ghost predicate FinalizesCommitted(a: RoundState, b: RoundState, env: Env, r: int) {
    var maj := Precommits(a.votes, r).maj23;
    && b.signed == a.signed
    && (b.decisions == a.decisions || |b.decisions| == |a.decisions| + 1)
    && (|b.decisions| > |a.decisions| ==>
          var d := b.decisions[|a.decisions|];
          && maj == Some(d.id) && d.id.BlockID? && d.round == r && env.validBlock(r, d.id.hash)
          && b.height == a.height + 1 && b.round == 0 && b.step == STEP_NEW_HEIGHT)
    && (b.failure != a.failure ==> b.failure in {Some(FinalizeWrongParts), Some(CommitOfInvalidBlock)})
  }

  /** The block of the commit round is here, complete and valid, and it can be applied. */
  predicate Finalizable(s: RoundState, env: Env) {
    var maj := Precommits(s.votes, s.commitRound).maj23;
    && s.failure.None? && env.applyBlock
    && maj.Some? && maj.value.BlockID? && HashesTo(s.proposalBlock, maj.value)
    && HasHeader(s.proposalParts, maj.value.parts) && env.validBlock(s.commitRound, maj.value.hash)
  }

  /** The node waits for the block to commit, has finalized it, or has stopped. */
  predicate ReachesCommit(a: RoundState, b: RoundState) {
    b.failure.Some? || b.height > a.height || b.step == STEP_COMMIT
  }

  // ----------------------------------------------------------------- small steps

  lemma InitOK(w: World, self: nat)
    requires ChainOK(w.chain)
    ensures NodeOK(Init(w.chain, self), w)
  {
    NewHeightVoteSetOK(w.chain.votersAfter([]), w.chain.initialHeight, w.cast);
    assert Hashes([]) == [];
  }

  /** Moving forward within the height, to a step that needs no commit. */
  lemma SetStepOK(s: RoundState, w: World, step: int)
    requires NodeOK(s, w) && s.step <= step < STEP_COMMIT
    ensures NodeOK(SetStep(s, s.round, step), w) && Follows(s, SetStep(s, s.round, step))
  {
  }

  lemma ScheduleOK(s: RoundState, w: World, round: nat, step: int)
    requires NodeOK(s, w) && round <= s.round
    ensures NodeOK(Schedule(s, s.height, round, step), w)
    ensures Follows(s, Schedule(s, s.height, round, step))
  {
  }

  lemma MajorityPersists(a: HeightVoteSet, b: HeightVoteSet, blk: int, low: int, high: int, high': int)
    requires MajoritiesKept(a, b) && high <= high'
    ensures PolkaNotBetween(a, blk, low, high) ==> PolkaNotBetween(b, blk, low, high')
  {
    if PolkaNotBetween(a, blk, low, high) {
      var r :| low < r <= high && PolkaNot(a, r, blk);
      assert SetOf(b, Prevote, r).maj23 == SetOf(a, Prevote, r).maj23;
      assert PolkaNot(b, r, blk);
    }
  }

  /** More votes of the same height keep the invariant. */
  lemma MoreVotesOK(s: RoundState, w: World, votes: HeightVoteSet)
    requires NodeOK(s, w) && HeightVoteSetOK(votes, s.voters) && MajoritiesKept(s.votes, votes)
    requires votes.round == s.votes.round && HeightVoteSetFrom(votes, s.height, w.cast)
    ensures NodeOK(s.(votes := votes), w) && Follows(s, s.(votes := votes))
  {
    var s' := s.(votes := votes);
    assert SetOf(votes, Prevote, s.lockedRound) == Prevotes(votes, s.lockedRound);
    assert SetOf(votes, Prevote, s.validRound) == Prevotes(votes, s.validRound);
    assert SetOf(votes, Precommit, s.commitRound) == Precommits(votes, s.commitRound);
    assert SetOf(s.votes, Prevote, s.lockedRound) == Prevotes(s.votes, s.lockedRound);
    assert SetOf(s.votes, Prevote, s.validRound) == Prevotes(s.votes, s.validRound);
    assert SetOf(s.votes, Precommit, s.commitRound) == Precommits(s.votes, s.commitRound);
    forall k | 0 <= k < |s.signed|
               && s.signed[k].vote.height == s.height && s.signed[k].vote.kind.Precommit?
               && s.signed[k].vote.id.BlockID?
      ensures Guarded(s', s.signed[k].vote.round, s.signed[k].vote.id.hash)
    {
      var v := s.signed[k].vote;
      assert Guarded(s, v.round, v.id.hash);
      MajorityPersists(s.votes, votes, v.id.hash, v.round, s.round, s.round);
    }
  }

  // -------------------------------------------------------------- signing a vote

  /** Signing the next vote of this height keeps the history justified. */
  lemma SignHistory(s: RoundState, w: World, kind: VoteType, id: BlockID)
    requires PositionOK(s, w.chain) && HistoryOK(s.signed, s.decisions, w.chain)
    requires Justified(Sign(s, kind, id).signed, |s.signed|)
    ensures HistoryOK(Sign(s, kind, id).signed, s.decisions, w.chain)
  {
    var signed := Sign(s, kind, id).signed;
    assert s.decisions[..|s.decisions|] == s.decisions;
    forall k | 0 <= k < |s.signed| ensures Justified(signed, k) {
      assert Justified(s.signed, k);
    }
  }

  /** The prevote of the code never contradicts an earlier precommit without a polka. */
  lemma PrevoteJustified(s: RoundState, env: Env, round: nat)
    requires SignedOK(s)
    ensures Justified(Sign(s, Prevote, PrevoteChoice(s, env, round)).signed, |s.signed|)
  {
    var id := PrevoteChoice(s, env, round);
    var s1 := Sign(s, Prevote, id);
    forall j | 0 <= j < |s.signed| && s1.signed[j].vote.kind.Precommit? && s1.signed[j].vote.id.BlockID?
               && s1.signed[j].vote.height == s.height
               && !HashesTo(Some(s1.signed[j].vote.id.hash), id)
      ensures PolkaNotBetween(s.votes, s1.signed[j].vote.id.hash, s1.signed[j].vote.round, s.round)
    {
      var v := s.signed[j].vote;
      assert Guarded(s, v.round, v.id.hash);
    }
  }

  lemma SignPrevoteOK(s: RoundState, w: World, env: Env)
    requires NodeOK(s, w) && s.step < STEP_PREVOTE
    ensures var s' := SetStep(Sign(s, Prevote, PrevoteChoice(s, env, s.round)), s.round, STEP_PREVOTE);
      NodeOK(s', w) && Follows(s, s')
  {
    hide PrevoteChoice;
    PrevoteJustified(s, env, s.round);
    SignHistory(s, w, Prevote, PrevoteChoice(s, env, s.round));
  }

  lemma EnterPrevoteOK(s: RoundState, w: World, env: Env, height: int, round: nat)
    requires NodeOK(s, w) && round <= s.round
    ensures var s' := EnterPrevote(s, env, height, round);
      NodeOK(s', w) && Follows(s, s') && SameRound(s, s') && PrevotesRightly(s, s', env)
      && (if s.failure.None? && s.height == height && s.round == round && s.step < STEP_PREVOTE
          then |s'.signed| == |s.signed| + 1 && s'.step == STEP_PREVOTE else s' == s)
  {
    hide NodeOK;
    if s.failure.None? && s.height == height && round == s.round && s.step < STEP_PREVOTE {
      SignPrevoteOK(s, w, env);
    }
  }

  lemma EnterPrevoteWaitOK(s: RoundState, w: World, height: int, round: nat)
    requires NodeOK(s, w) && round <= s.round
    requires s.round == round ==> HasTwoThirdsAny(Prevotes(s.votes, round), s.voters)
    ensures var s' := EnterPrevoteWait(s, height, round);
      NodeOK(s', w) && Follows(s, s') && OnlyWaits(s, s')
  {
  }

  /** Precommitting nil, with or without giving up a lock. */
  lemma PrecommitNilOK(s: RoundState, w: World)
    requires NodeOK(s, w) && s.step < STEP_PRECOMMIT
    ensures var s' := SetStep(Sign(s, Precommit, NilBlock), s.round, STEP_PRECOMMIT);
      NodeOK(s', w) && Follows(s, s')
  {
    SignHistory(s, w, Precommit, NilBlock);
    var s' := SetStep(Sign(s, Precommit, NilBlock), s.round, STEP_PRECOMMIT);
    forall k | 0 <= k < |s'.signed|
               && s'.signed[k].vote.height == s'.height && s'.signed[k].vote.kind.Precommit?
               && s'.signed[k].vote.id.BlockID?
      ensures Guarded(s', s'.signed[k].vote.round, s'.signed[k].vote.id.hash)
    {
      assert s'.signed[k] == s.signed[k];
      assert Guarded(s, s'.signed[k].vote.round, s'.signed[k].vote.id.hash);
    }
  }

  // ---------------------------------------------------------- locking and unlocking

  /** A polka for something else, after the lock, entitles the node to unlock. */
  lemma UnlockOK(s: RoundState, w: World, r: int)
    requires NodeOK(s, w) && s.lockedRound < r <= s.round
    requires s.lockedBlock.Some? ==> PolkaNot(s.votes, r, s.lockedBlock.value)
    ensures NodeOK(Unlock(s), w) && Follows(s, Unlock(s))
  {
    var s' := Unlock(s);
    forall k | 0 <= k < |s.signed|
               && s.signed[k].vote.height == s.height && s.signed[k].vote.kind.Precommit?
               && s.signed[k].vote.id.BlockID?
      ensures Guarded(s', s.signed[k].vote.round, s.signed[k].vote.id.hash)
    {
      assert Guarded(s, s.signed[k].vote.round, s.signed[k].vote.id.hash);
    }
  }

  /** Locking or relocking the block of this round's polka, and precommitting it. */
  lemma LockOK(s: RoundState, w: World, id: BlockID, parts: int)
    requires NodeOK(s, w) && s.step < STEP_PRECOMMIT
    requires id.BlockID? && Prevotes(s.votes, s.round).maj23 == Some(id)
    ensures
      var s1 := s.(lockedRound := s.round, lockedBlock := Some(id.hash), lockedParts := parts);
      var s' := SetStep(Sign(s1, Precommit, id), s.round, STEP_PRECOMMIT);
      NodeOK(s', w) && Follows(s, s')
  {
    var s1 := s.(lockedRound := s.round, lockedBlock := Some(id.hash), lockedParts := parts);
    SignHistory(s1, w, Precommit, id);
    var s' := SetStep(Sign(s1, Precommit, id), s.round, STEP_PRECOMMIT);
    forall k | 0 <= k < |s'.signed|
               && s'.signed[k].vote.height == s'.height && s'.signed[k].vote.kind.Precommit?
               && s'.signed[k].vote.id.BlockID?
      ensures Guarded(s', s'.signed[k].vote.round, s'.signed[k].vote.id.hash)
    {
      var v := s'.signed[k].vote;
      if k < |s.signed| && v.id.hash != id.hash {
        // an earlier precommit for another block: this polka overrides it
        assert CastBy(v, s) && v.round < s.round;
        assert PolkaNot(s'.votes, s.round, v.id.hash);
      }
    }
  }

  /** The invariant does not look at the proposal or at the wait flag. */
  lemma ProposalFieldsOK(s: RoundState, w: World, p: Option<Proposal>, b: Option<int>,
                         parts: Option<PartSet>, triggered: bool)
    requires NodeOK(s, w)
    ensures
      var s' := s.(proposal := p, proposalBlock := b, proposalParts := parts, triggeredTimeoutPrecommit := triggered);
      NodeOK(s', w) && Follows(s, s')
  {
  }

  lemma FailOK(s: RoundState, w: World, f: Failure)
    requires NodeOK(s, w) && FailureOK(Fail(s, f))
    ensures NodeOK(Fail(s, f), w) && Follows(s, Fail(s, f))
  {
  }

  /** The parts of the invariant that the step functions branch on. */
  lemma NodeFacts(s: RoundState, w: World)
    requires NodeOK(s, w)
    ensures s.votes.round >= s.round
    ensures s.lockedRound == s.round ==> s.step >= STEP_PRECOMMIT
    ensures s.step <= STEP_COMMIT && HeightVoteSetOK(s.votes, s.voters)
    ensures s.lockedBlock.Some? <==> s.lockedRound >= 0
    ensures s.lockedRound <= s.round && s.validRound <= s.round
  {
  }

  lemma PrecommitBlockOK(s: RoundState, w: World, env: Env, id: BlockID)
    requires NodeOK(s, w) && s.step < STEP_PRECOMMIT
    requires id.BlockID? && Prevotes(s.votes, s.round).maj23 == Some(id)
    ensures var s' := SetStep(PrecommitBlock(s, env, s.round, id), s.round, STEP_PRECOMMIT);
      NodeOK(s', w) && Follows(s, s')
  {
    hide NodeOK;
    if HashesTo(s.lockedBlock, id) {
      LockOK(s, w, id, s.lockedParts);
    } else if HashesTo(s.proposalBlock, id) {
      if env.validBlock(s.round, id.hash) {
        LockOK(s, w, id, PartsHeader(s.proposalParts));
      } else {
        FailOK(s, w, PolkaForInvalidBlock);
        SetStepOK(Fail(s, PolkaForInvalidBlock), w, STEP_PRECOMMIT);
      }
    } else {
      NodeFacts(s, w);
      UnlockOK(s, w, s.round);
      var s1 := Unlock(s);
      var s2 := if HasHeader(s1.proposalParts, id.parts) then s1
                else ExpectParts(s1.(proposalBlock := None), id.parts);
      ProposalFieldsOK(s1, w, s2.proposal, s2.proposalBlock, s2.proposalParts, s2.triggeredTimeoutPrecommit);
      assert s2 == s1.(proposal := s2.proposal, proposalBlock := s2.proposalBlock,
                       proposalParts := s2.proposalParts, triggeredTimeoutPrecommit := s2.triggeredTimeoutPrecommit);
      PrecommitNilOK(s2, w);
    }
  }

  lemma PrecommitVotes(s: RoundState, w: World, env: Env)
    requires NodeOK(s, w) && s.failure.None? && s.step < STEP_PRECOMMIT
    ensures var s' := EnterPrecommit(s, env, s.height, s.round);
      PrecommitsRightly(s, s', env) && s'.step == STEP_PRECOMMIT
  {
    hide NodeOK, PrecommitBlock, POLRound;
    NodeFacts(s, w);
    var polka := Prevotes(s.votes, s.round).maj23;
    if polka.Some? {
      assert POLRound(s.votes, s.votes.round) >= s.round by {
        PolkaFound(s.votes, s.round);
      }
      if polka.value.BlockID? {
        PolkaAnswered(s, env, polka.value);
      }
    }
  }

  lemma PolkaFound(votes: HeightVoteSet, round: nat)
    requires Prevotes(votes, round).maj23.Some? && round <= votes.round
    ensures POLRound(votes, votes.round) >= round
  {
  }

  lemma PolkaAnswered(s: RoundState, env: Env, id: BlockID)
    requires s.failure.None? && id.BlockID? && Prevotes(s.votes, s.round).maj23 == Some(id)
    ensures PrecommitsRightly(s, SetStep(PrecommitBlock(s, env, s.round, id), s.round, STEP_PRECOMMIT), env)
  {
  }

  lemma EnterPrecommitKeeps(s: RoundState, w: World, env: Env, height: int, round: nat)
    requires NodeOK(s, w) && round <= s.round
    ensures var s' := EnterPrecommit(s, env, height, round);
      NodeOK(s', w) && Follows(s, s') && SameRound(s, s')
  {
    hide NodeOK;
    if s.failure.None? && s.height == height && round == s.round && s.step < STEP_PRECOMMIT {
      var maj := Prevotes(s.votes, round).maj23;
      if maj.None? {
        PrecommitNilOK(s, w);
      } else {
        NodeFacts(s, w);
        assert POLRound(s.votes, s.votes.round) >= round;
        if maj.value.NilBlock? {
          UnlockOK(s, w, round);
          PrecommitNilOK(Unlock(s), w);
        } else {
          PrecommitBlockOK(s, w, env, maj.value);
        }
      }
    }
  }

  lemma EnterPrecommitOK(s: RoundState, w: World, env: Env, height: int, round: nat)
    requires NodeOK(s, w) && round <= s.round
    ensures var s' := EnterPrecommit(s, env, height, round);
      NodeOK(s', w) && Follows(s, s') && SameRound(s, s')
      && (if s.failure.None? && s.height == height && s.round == round && s.step < STEP_PRECOMMIT
          then PrecommitsRightly(s, s', env) && s'.step == STEP_PRECOMMIT else s' == s)
  {
    hide NodeOK, PrecommitsRightly;
    EnterPrecommitKeeps(s, w, env, height, round);
    if s.failure.None? && s.height == height && round == s.round && s.step < STEP_PRECOMMIT {
      PrecommitVotes(s, w, env);
    }
  }

  ghost predicate SameRound(a: RoundState, b: RoundState) {
    a.height == b.height && a.round == b.round && a.votes == b.votes && a.voters == b.voters
  }

  lemma EnterPrecommitWaitOK(s: RoundState, w: World, height: int, round: nat)
    requires NodeOK(s, w) && round <= s.round
    requires s.round == round ==> HasTwoThirdsAny(Precommits(s.votes, round), s.voters)
    ensures var s' := EnterPrecommitWait(s, height, round);
      NodeOK(s', w) && Follows(s, s') && OnlyWaits(s, s')
  {
  }

  /** The node votes at once if it can, and else waits for the proposal. */
  ghost predicate Proposes(a: RoundState, b: RoundState) {
    && b.step == (if CanPrevote(a) then STEP_PREVOTE else STEP_PROPOSE)
    && (|b.signed| > |a.signed| <==> CanPrevote(a))
  }

  lemma EnterProposeOK(s: RoundState, w: World, env: Env, height: int, round: nat)
    requires NodeOK(s, w) && round <= s.round
    ensures var s' := EnterPropose(s, env, height, round);
      NodeOK(s', w) && Follows(s, s') && SameRound(s, s') && PrevotesRightly(s, s', env)
      && (if s.failure.None? && s.height == height && s.round == round && s.step < STEP_PROPOSE
          then Timeout(height, round, STEP_PROPOSE) in s'.timeouts && Proposes(s, s') else s' == s)
  {
    hide NodeOK;
    if s.failure.None? && s.height == height && round == s.round && s.step < STEP_PROPOSE {
      ScheduleOK(s, w, round, STEP_PROPOSE);
      var s0 := Schedule(s, height, round, STEP_PROPOSE);
      SetStepOK(s0, w, STEP_PROPOSE);
      EnterPrevoteOK(SetStep(s0, round, STEP_PROPOSE), w, env, height, round);
    }
  }

  /** A later round: nothing signed, locked or decided changes. */
  lemma NextRoundOK(s: RoundState, w: World, round: nat)
    requires NodeOK(s, w) && s.failure.None?
    requires s.round < round || (s.round == round && s.step == STEP_NEW_HEIGHT)
    ensures CanSetRound(s.votes, round + 1)
    ensures
      var s' := SetStep(s, round, STEP_NEW_ROUND).(votes := SetRound(s.votes, round + 1));
      NodeOK(s', w) && Follows(s, s')
      && (forall kind, r: int :: SetOf(s'.votes, kind, r) == SetOf(s.votes, kind, r))
  {
    SetRoundSame(s.votes, round + 1);
    var s' := SetStep(s, round, STEP_NEW_ROUND).(votes := SetRound(s.votes, round + 1));
    assert MajoritiesKept(s.votes, s'.votes);
    assert forall r: int ::
      Prevotes(s'.votes, r) == SetOf(s'.votes, Prevote, r) == SetOf(s.votes, Prevote, r) == Prevotes(s.votes, r);
    assert Precommits(s'.votes, s.commitRound) == SetOf(s'.votes, Precommit, s.commitRound)
           == SetOf(s.votes, Precommit, s.commitRound);
    forall k | 0 <= k < |s.signed|
               && s.signed[k].vote.height == s.height && s.signed[k].vote.kind.Precommit?
               && s.signed[k].vote.id.BlockID?
      ensures Guarded(s', s.signed[k].vote.round, s.signed[k].vote.id.hash)
    {
      var v := s.signed[k].vote;
      assert Guarded(s, v.round, v.id.hash);
      MajorityPersists(s.votes, s'.votes, v.id.hash, v.round, s.round, round);
    }
  }

  lemma StartRoundOK(s: RoundState, w: World, round: nat)
    requires NodeOK(s, w) && s.failure.None?
    requires s.round < round || (s.round == round && s.step == STEP_NEW_HEIGHT)
    ensures CanSetRound(s.votes, round + 1)
    ensures var s' := StartRound(s, round);
      && NodeOK(s', w) && Follows(s, s')
      && forall kind, r: int :: SetOf(s'.votes, kind, r) == SetOf(s.votes, kind, r)
  {
    NextRoundOK(s, w, round);
    var s1 := SetStep(s, round, STEP_NEW_ROUND).(votes := SetRound(s.votes, round + 1));
    var s' := StartRound(s, round);
    ProposalFieldsOK(s1, w, s'.proposal, s'.proposalBlock, s'.proposalParts, false);
    assert s' == s1.(proposal := s'.proposal, proposalBlock := s'.proposalBlock,
                     proposalParts := s'.proposalParts, triggeredTimeoutPrecommit := false);
  }

  lemma EnterNewRoundOK(s: RoundState, w: World, env: Env, height: int, round: nat)
    requires NodeOK(s, w)
    ensures var s' := EnterNewRound(s, env, height, round);
      && NodeOK(s', w) && Follows(s, s') && s'.height == s.height
      && (s.failure.None? && s.height == height ==> s'.round >= round)
      && (s'.round == s.round || s'.round == round) && s'.voters == s.voters
      && (forall kind, r: int :: SetOf(s'.votes, kind, r) == SetOf(s.votes, kind, r))
      && s'.failure == s.failure && s'.lockedBlock == s.lockedBlock
  {
    hide NodeOK;
    if s.failure.None? && s.height == height
       && (s.round < round || (s.round == round && s.step == STEP_NEW_HEIGHT)) {
      StartRoundOK(s, w, round);
      var s3 := StartRound(s, round);
      if env.waitForTxs && round == 0 && !NeedsFirstBlock(s) {
        ScheduleOK(s3, w, round, STEP_NEW_ROUND);
      } else {
        EnterProposeOK(s3, w, env, height, round);
      }
    }
  }

  // ------------------------------------------------------------------- committing

  /** The Commit step points at a round with +2/3 precommits for a block. */
  lemma CommitStepOK(s: RoundState, w: World, commitRound: nat)
    requires NodeOK(s, w) && s.step < STEP_COMMIT
    requires Precommits(s.votes, commitRound).maj23.Some? && Precommits(s.votes, commitRound).maj23.value.BlockID?
    ensures var s' := SetStep(s, s.round, STEP_COMMIT).(commitRound := commitRound);
      NodeOK(s', w) && Follows(s, s')
  {
  }

  lemma PrefixOf<T>(a: seq<T>, b: seq<T>, n: nat)
    requires n <= |a|
    ensures (a + b)[..n] == a[..n]
  {
  }

  /** Recording a decision leaves the earlier history as it was. */
  lemma DecideHistory(s: RoundState, w: World, d: Decision)
    requires PositionOK(s, w.chain) && HistoryOK(s.signed, s.decisions, w.chain)
    requires d.id.BlockID? && d.round >= 0 && Precommits(d.votes, d.round).maj23 == Some(d.id)
    requires HeightVoteSetOK(d.votes, s.voters)
    ensures HistoryOK(s.signed, s.decisions + [d], w.chain)
  {
    var ds := s.decisions + [d];
    forall k | 0 <= k < |s.signed| ensures RequestOK(s.signed[k], ds, w.chain) {
      assert RequestOK(s.signed[k], s.decisions, w.chain);
      PrefixOf(s.decisions, [d], s.signed[k].vote.height - w.chain.initialHeight);
    }
    forall k | 0 <= k < |ds| ensures DecisionOK(ds, w.chain, k) {
      PrefixOf(s.decisions, [d], k);
      if k < |s.decisions| {
        assert DecisionOK(s.decisions, w.chain, k);
      } else {
        assert s.decisions[..k] == s.decisions;
      }
    }
  }

  /** A new height starts from nothing but the history. */
  lemma NewHeightOK(s: RoundState, w: World, d: Decision)
    requires ChainOK(w.chain) && NodeOK(s, w) && s.failure.None?
    requires s.commitRound >= 0 && d == Decision(Precommits(s.votes, s.commitRound).maj23.value, s.commitRound, s.votes)
    ensures var s' := UpdateToState(s.(decisions := s.decisions + [d]), w.chain);
      NodeOK(s', w) && Follows(s, s') && s'.height == s.height + 1
  {
    DecideHistory(s, w, d);
    assert VoteSetOK(SetOf(s.votes, Precommit, s.commitRound), s.voters);
    NewHeightVoteSetOK(w.chain.votersAfter(Hashes(s.decisions + [d])), s.height + 1, w.cast);
  }

  lemma FinalizeCommitOK(s: RoundState, w: World, env: Env, height: int)
    requires ChainOK(w.chain) && NodeOK(s, w)
    requires Precommits(s.votes, s.commitRound).maj23.Some? && s.commitRound >= 0
    requires HashesTo(s.proposalBlock, Precommits(s.votes, s.commitRound).maj23.value)
    ensures var s' := FinalizeCommit(s, w.chain, env, height);
      NodeOK(s', w) && Follows(s, s') && FinalizesCommitted(s, s', env, s.commitRound)
      && (s.height == height && s.step == STEP_COMMIT ==> (s'.height > s.height <==> Finalizable(s, env)))
      && (s'.height > s.height || s'.step == s.step)
  {
    hide NodeOK;
    if s.failure.None? && s.height == height && s.step == STEP_COMMIT {
      var id := Precommits(s.votes, s.commitRound).maj23.value;
      if !HasHeader(s.proposalParts, PartsOf(id)) {
        FailOK(s, w, FinalizeWrongParts);
      } else if !env.validBlock(s.commitRound, id.hash) {
        FailOK(s, w, CommitOfInvalidBlock);
      } else if env.applyBlock {
        var d := Decision(id, s.commitRound, s.votes);
        NewHeightOK(s, w, d);
        var s2 := UpdateToState(s.(decisions := s.decisions + [d]), w.chain);
        ScheduleOK(s2, w, 0, STEP_NEW_HEIGHT);
      }
    }
  }

  lemma TryFinalizeCommitOK(s: RoundState, w: World, env: Env)
    requires ChainOK(w.chain) && NodeOK(s, w) && s.step == STEP_COMMIT
    ensures var s' := TryFinalizeCommit(s, w.chain, env, s.height);
      NodeOK(s', w) && Follows(s, s') && FinalizesCommitted(s, s', env, s.commitRound)
      && (s'.height > s.height <==> Finalizable(s, env)) && ReachesCommit(s, s')
  {
    hide NodeOK;
    CommitFacts(s, w);
    var maj := Precommits(s.votes, s.commitRound).maj23;
    if s.failure.None? && HashesTo(s.proposalBlock, maj.value) {
      FinalizeCommitOK(s, w, env, s.height);
    }
  }

  lemma CommitFacts(s: RoundState, w: World)
    requires NodeOK(s, w) && s.step == STEP_COMMIT
    ensures s.commitRound >= 0 && Precommits(s.votes, s.commitRound).maj23.Some?
    ensures Precommits(s.votes, s.commitRound).maj23.value.BlockID?
  {
  }

  /** What enterCommit does before it tries to finalize. */
  lemma CommitReady(s: RoundState, w: World, commitRound: nat) returns (s': RoundState)
    requires NodeOK(s, w) && s.failure.None? && s.step < STEP_COMMIT
    requires Precommits(s.votes, commitRound).maj23.Some? && Precommits(s.votes, commitRound).maj23.value.BlockID?
    ensures NodeOK(s', w) && Follows(s, s') && s'.step == STEP_COMMIT && s'.commitRound == commitRound
    ensures s' == s.(proposalBlock := s'.proposalBlock, proposalParts := s'.proposalParts,
                     step := STEP_COMMIT, commitRound := commitRound)
    ensures forall chain, env ::
      EnterCommit(s, chain, env, s.height, commitRound) == TryFinalizeCommit(s', chain, env, s.height)
  {
    hide NodeOK, TryFinalizeCommit;
    var id := Precommits(s.votes, commitRound).maj23.value;
    var s1 := if HashesTo(s.lockedBlock, id)
              then s.(proposalBlock := s.lockedBlock, proposalParts := Some(PartSet(s.lockedParts, true)))
              else s;
    var s2 := if HashesTo(s1.proposalBlock, id) || HasHeader(s1.proposalParts, PartsOf(id))
              then s1 else ExpectParts(s1.(proposalBlock := None), PartsOf(id));
    ProposalFieldsOK(s, w, s2.proposal, s2.proposalBlock, s2.proposalParts, s2.triggeredTimeoutPrecommit);
    assert s2 == s.(proposal := s2.proposal, proposalBlock := s2.proposalBlock,
                    proposalParts := s2.proposalParts, triggeredTimeoutPrecommit := s2.triggeredTimeoutPrecommit);
    CommitStepOK(s2, w, commitRound);
    s' := SetStep(s2, s2.round, STEP_COMMIT).(commitRound := commitRound);
  }

  lemma EnterCommitOK(s: RoundState, w: World, env: Env, height: int, commitRound: nat)
    requires ChainOK(w.chain) && NodeOK(s, w)
    requires Precommits(s.votes, commitRound).maj23.Some? && Precommits(s.votes, commitRound).maj23.value.BlockID?
    ensures var s' := EnterCommit(s, w.chain, env, height, commitRound);
      NodeOK(s', w) && Follows(s, s') && FinalizesCommitted(s, s', env, commitRound)
      && (s.height == height ==> ReachesCommit(s, s'))
  {
    hide NodeOK, TryFinalizeCommit;
    NodeFacts(s, w);
    if s.failure.None? && s.height == height && s.step < STEP_COMMIT {
      hide EnterCommit;
      var s1 := CommitReady(s, w, commitRound);
      TryFinalizeCommitOK(s1, w, env);
    }
  }

  // --------------------------------------------------------------------- messages

  lemma LastCommitFieldOK(s: RoundState, w: World, lc: Option<LastCommit>)
    requires NodeOK(s, w) && s.lastCommit.Some? && lc.Some? && LastCommitOK(lc.value)
    ensures NodeOK(s.(lastCommit := lc), w) && Follows(s, s.(lastCommit := lc))
  {
  }

  lemma AddLastCommitVoteOK(s: RoundState, w: World, env: Env, vote: Vote)
    requires NodeOK(s, w)
    ensures var s' := AddLastCommitVote(s, env, vote);
      NodeOK(s', w) && Follows(s, s')
  {
    hide NodeOK, VoteSetOK, AddVoteToSet;
    FailOK(s, w, VoteForMissingLastCommit);
    if s.lastCommit.Some? {
      var lc := s.lastCommit.value;
      var vs := AddVoteToSet(lc.votes, lc.voters, vote.voter, vote.id).0;
      LastCommitFacts(s, w);
      AddVoteToSetOK(lc.votes, lc.voters, vote.voter, vote.id);
      LastCommitFieldOK(s, w, Some(lc.(votes := vs)));
      EnterNewRoundOK(s.(lastCommit := Some(lc.(votes := vs))), w, env, s.height, 0);
    }
  }

  lemma ValidBlockOK(s: RoundState, w: World)
    requires NodeOK(s, w) && PolkaFor(s.votes, s.round, s.proposalBlock)
    ensures var s' := s.(validRound := s.round, validBlock := s.proposalBlock);
      NodeOK(s', w) && Follows(s, s')
  {
  }

  lemma PolkaEffects(s: RoundState, round: nat, id: BlockID)
    requires Prevotes(s.votes, round).maj23 == Some(id)
    ensures UnlocksForPolka(s, OnPolka(s, round, id), round) && ValidForPolka(s, OnPolka(s, round, id), round, id)
  {
  }

  lemma OnPolkaOK(s: RoundState, w: World, round: nat)
    requires NodeOK(s, w) && Prevotes(s.votes, round).maj23.Some?
    ensures var s' := OnPolka(s, round, Prevotes(s.votes, round).maj23.value);
      NodeOK(s', w) && Follows(s, s') && SameRound(s, s') && s'.step == s.step && s'.failure == s.failure
      && UnlocksForPolka(s, s', round) && ValidForPolka(s, s', round, Prevotes(s.votes, round).maj23.value)
  {
    hide NodeOK, ValidForPolka, UnlocksForPolka;
    var id := Prevotes(s.votes, round).maj23.value;
    PolkaEffects(s, round, id);
    var unlocks := s.lockedBlock.Some? && s.lockedRound < round <= s.round && !HashesTo(s.lockedBlock, id);
    if unlocks {
      UnlockOK(s, w, round);
    }
    var s1 := if unlocks then Unlock(s) else s;
    if id.BlockID? && s1.validRound < round && round == s1.round {
      if HashesTo(s1.proposalBlock, id) {
        ValidBlockOK(s1, w);
      }
      var s2 := if HashesTo(s1.proposalBlock, id)
                then s1.(validRound := round, validBlock := s1.proposalBlock) else s1;
      var s3 := OnPolka(s, round, id);
      ProposalFieldsOK(s2, w, s3.proposal, s3.proposalBlock, s3.proposalParts, s3.triggeredTimeoutPrecommit);
      assert s3 == s2.(proposal := s3.proposal, proposalBlock := s3.proposalBlock,
                       proposalParts := s3.proposalParts, triggeredTimeoutPrecommit := s3.triggeredTimeoutPrecommit);
    }
  }

  lemma OnPrevoteOK(s: RoundState, w: World, env: Env, round: nat)
    requires NodeOK(s, w)
    ensures var s' := OnPrevote(s, env, round);
      NodeOK(s', w) && Follows(s, s')
      && (s.failure.None? && HasTwoThirdsAny(Prevotes(s.votes, round), s.voters) ==> s'.round >= round)
  {
    hide NodeOK, OnPolka, EnterNewRound, EnterPrecommit, EnterPrevote, EnterPrevoteWait, PrevotesRightly;
    var prevotes := Prevotes(s.votes, round);
    if prevotes.maj23.Some? {
      OnPolkaOK(s, w, round);
    }
    var s1 := if prevotes.maj23.Some? then OnPolka(s, round, prevotes.maj23.value) else s;
    if s1.round < round && HasTwoThirdsAny(prevotes, s1.voters) {
      EnterNewRoundOK(s1, w, env, s1.height, round);
    } else if s1.round == round && STEP_PREVOTE <= s1.step {
      EnterPrecommitKeeps(s1, w, env, s1.height, round);
      if HasTwoThirdsAny(prevotes, s1.voters) {
        EnterPrevoteWaitOK(s1, w, s1.height, round);
      }
    } else {
      EnterPrevoteOK(s1, w, env, s1.height, s1.round);
    }
  }

  lemma OnPrecommitOK(s: RoundState, w: World, env: Env, round: nat)
    requires ChainOK(w.chain) && NodeOK(s, w) && s.failure.None?
    ensures var s' := OnPrecommit(s, w.chain, env, round);
      NodeOK(s', w) && Follows(s, s')
      && (Precommits(s.votes, round).maj23.Some? && Precommits(s.votes, round).maj23.value.BlockID? ==>
            ReachesCommit(s, s'))
  {
    hide NodeOK, EnterNewRound, EnterPrecommit, EnterCommit,
      EnterPrecommitWait, VoteSetOK, FinalizesCommitted;
    NodeFacts(s, w);
    var precommits := Precommits(s.votes, round);
    assert precommits == SetOf(s.votes, Precommit, round);
    EnterNewRoundOK(s, w, env, s.height, round);
    var s1 := EnterNewRound(s, env, s.height, round);
    assert Precommits(s1.votes, round) == SetOf(s1.votes, Precommit, round);
    if precommits.maj23.Some? {
      EnterPrecommitKeeps(s1, w, env, s.height, round);
      var s2 := EnterPrecommit(s1, env, s.height, round);
      if precommits.maj23.value.BlockID? {
        EnterCommitOK(s2, w, env, s.height, round);
        var s3 := EnterCommit(s2, w.chain, env, s.height, round);
        EnterNewRoundOK(s3, w, env, s3.height, 0);
        NodeFacts(EnterNewRound(s3, env, s3.height, 0), w);
      } else {
        MajorityIsTwoThirdsAny(precommits, s.voters);
        EnterPrecommitWaitOK(s2, w, s.height, round);
      }
    } else if HasTwoThirdsAny(precommits, s.voters) {
      EnterPrecommitWaitOK(s1, w, s.height, round);
    }
  }

  lemma HandleVoteOK(s: RoundState, w: World, env: Env, vote: Vote, peer: nat)
    requires ChainOK(w.chain) && NodeOK(s, w) && s.failure.None? && vote in w.cast
    ensures var s' := HandleVote(s, w.chain, env, vote, peer);
      NodeOK(s', w) && Follows(s, s')
  {
    hide NodeOK, AddVote, OnPrevote, OnPrecommit, AddLastCommitVote;
    if vote.height + 1 == s.height && vote.kind.Precommit? {
      AddLastCommitVoteOK(s, w, env, vote);
    } else if vote.height == s.height {
      VotersFacts(s, w);
      AddVoteOK(s.votes, s.voters, vote, peer);
      AddVoteFrom(s.votes, s.voters, vote, peer, s.height, w.cast);
      var votes := AddVote(s.votes, s.voters, vote, peer).0;
      MoreVotesOK(s, w, votes);
      OnPrevoteOK(s.(votes := votes), w, env, vote.round);
      OnPrecommitOK(s.(votes := votes), w, env, vote.round);
    }
  }

  // ------------------------------------------------- a vote for a missing last commit

  predicate Missing(s: RoundState) {
    s.failure == Some(VoteForMissingLastCommit)
  }

  lemma StepsNotMissing(s: RoundState, chain: Chain, env: Env, height: int, round: nat)
    requires !Missing(s)
    ensures !Missing(EnterPrevote(s, env, height, round)) && !Missing(EnterPropose(s, env, height, round))
    ensures !Missing(EnterPrecommit(s, env, height, round)) && !Missing(EnterPrevoteWait(s, height, round))
    ensures !Missing(EnterPrecommitWait(s, height, round)) && !Missing(EnterNewRound(s, env, height, round))
  {
    hide PrevoteChoice, SetRound;
  }

  lemma CommitNotMissing(s: RoundState, chain: Chain, env: Env, height: int, round: nat)
    requires !Missing(s)
    ensures !Missing(EnterCommit(s, chain, env, height, round))
  {
  }

  lemma VotesNotMissing(s: RoundState, chain: Chain, env: Env, round: nat)
    requires !Missing(s)
    ensures !Missing(OnPrevote(s, env, round)) && !Missing(OnPrecommit(s, chain, env, round))
  {
    hide EnterNewRound, EnterPrevote, EnterPrecommit, EnterCommit, EnterPrevoteWait, EnterPrecommitWait;
    var prevotes := Prevotes(s.votes, round);
    var s1 := if prevotes.maj23.Some? then OnPolka(s, round, prevotes.maj23.value) else s;
    StepsNotMissing(s1, chain, env, s1.height, round);
    StepsNotMissing(s1, chain, env, s1.height, s1.round);
    StepsNotMissing(s, chain, env, s.height, round);
    var s2 := EnterNewRound(s, env, s.height, round);
    StepsNotMissing(s2, chain, env, s.height, round);
    var s3 := EnterPrecommit(s2, env, s.height, round);
    StepsNotMissing(s3, chain, env, s.height, round);
    CommitNotMissing(s3, chain, env, s.height, round);
    var s4 := EnterCommit(s3, chain, env, s.height, round);
    StepsNotMissing(s4, chain, env, s4.height, 0);
  }

  /** A vote stops the node over a missing last commit if and only if it is a precommit for
      the height below the first one, and the node still waits for its first round. Nothing
      about the vote's signer matters. */
  lemma MissingLastCommit(s: RoundState, w: World, env: Env, vote: Vote, peer: nat)
    requires NodeOK(s, w) && s.failure.None?
    ensures Missing(HandleVote(s, w.chain, env, vote, peer)) <==>
      vote.kind.Precommit? && vote.height + 1 == s.height == w.chain.initialHeight && s.step == STEP_NEW_HEIGHT
  {
    hide NodeOK, AddVote, OnPrevote, OnPrecommit, EnterNewRound;
    LastCommitFacts(s, w);
    if vote.height + 1 == s.height && vote.kind.Precommit? {
      if s.step == STEP_NEW_HEIGHT && s.lastCommit.Some? && vote.round == s.lastCommit.value.round {
        var lc := s.lastCommit.value;
        var vs := AddVoteToSet(lc.votes, lc.voters, vote.voter, vote.id).0;
        StepsNotMissing(s.(lastCommit := Some(lc.(votes := vs))), w.chain, env, s.height, 0);
      }
    } else if vote.height == s.height {
      VotesNotMissing(s.(votes := AddVote(s.votes, s.voters, vote, peer).0), w.chain, env, vote.round);
    }
  }

  lemma LastCommitFacts(s: RoundState, w: World)
    requires NodeOK(s, w)
    ensures s.lastCommit.None? <==> s.height == w.chain.initialHeight
    ensures s.lastCommit.Some? ==> LastCommitOK(s.lastCommit.value)
  {
  }

  /** It happens: a new node and any such precommit. */
  lemma MissingLastCommitHappens(chain: Chain, self: nat, env: Env, round: nat, id: BlockID, voter: nat, peer: nat)
    ensures
      var vote := Vote(Precommit, chain.initialHeight - 1, round, id, voter);
      Handle(Init(chain, self), chain, env, VoteInput(vote, peer)).failure == Some(VoteForMissingLastCommit)
  {
  }

  lemma VotersFacts(s: RoundState, w: World)
    requires ChainOK(w.chain) && NodeOK(s, w)
    ensures Distinct(s.voters) && HeightVoteSetOK(s.votes, s.voters) && HeightVoteSetFrom(s.votes, s.height, w.cast)
  {
  }

  lemma HandleProposalOK(s: RoundState, w: World, height: int, round: nat, proposal: Proposal)
    requires NodeOK(s, w)
    ensures var s' := HandleProposal(s, height, round, proposal);
      NodeOK(s', w) && Follows(s, s')
  {
    hide NodeOK;
    var s' := HandleProposal(s, height, round, proposal);
    ProposalFieldsOK(s, w, s'.proposal, s'.proposalBlock, s'.proposalParts, s'.triggeredTimeoutPrecommit);
    assert s' == s.(proposal := s'.proposal, proposalBlock := s'.proposalBlock,
                    proposalParts := s'.proposalParts, triggeredTimeoutPrecommit := s'.triggeredTimeoutPrecommit);
  }

  lemma HandleCompleteProposalOK(s: RoundState, w: World, env: Env)
    requires ChainOK(w.chain) && NodeOK(s, w)
    ensures var s' := HandleCompleteProposal(s, w.chain, env, s.height);
      NodeOK(s', w) && Follows(s, s')
      && (s.step == STEP_COMMIT ==> (s'.height > s.height <==> Finalizable(s, env)))
  {
    hide NodeOK, EnterPrevote, EnterPrecommit, TryFinalizeCommit;
    var maj := Prevotes(s.votes, s.round).maj23;
    var updates := maj.Some? && maj.value.BlockID? && s.validRound < s.round && HashesTo(s.proposalBlock, maj.value);
    if updates {
      ValidBlockOK(s, w);
    }
    var s1 := if updates then s.(validRound := s.round, validBlock := s.proposalBlock) else s;
    if s1.step <= STEP_PROPOSE && IsProposalComplete(s1) {
      EnterPrevoteOK(s1, w, env, s.height, s1.round);
      var s2 := EnterPrevote(s1, env, s.height, s1.round);
      EnterPrecommitKeeps(s2, w, env, s.height, s2.round);
    } else if s1.step == STEP_COMMIT {
      TryFinalizeCommitOK(s1, w, env);
    }
  }

  lemma HandleBlockPartOK(s: RoundState, w: World, env: Env, height: int, complete: bool, block: Option<int>)
    requires ChainOK(w.chain) && NodeOK(s, w)
    ensures var s' := HandleBlockPart(s, w.chain, env, height, complete, block);
      NodeOK(s', w) && Follows(s, s')
  {
    hide NodeOK, HandleCompleteProposal;
    if s.height == height && s.proposalParts.Some? && !s.proposalParts.value.complete && complete {
      var s1 := s.(proposalParts := Some(s.proposalParts.value.(complete := true)));
      var s2 := if block.Some? then s1.(proposalBlock := block) else s1;
      ProposalFieldsOK(s, w, s2.proposal, s2.proposalBlock, s2.proposalParts, s2.triggeredTimeoutPrecommit);
      assert s2 == s.(proposal := s2.proposal, proposalBlock := s2.proposalBlock,
                      proposalParts := s2.proposalParts, triggeredTimeoutPrecommit := s2.triggeredTimeoutPrecommit);
      HandleCompleteProposalOK(s2, w, env);
    }
  }

  lemma TimeoutFacts(s: RoundState, w: World, t: Timeout)
    requires NodeOK(s, w) && (t in s.timeouts || t.round == 0) && t.height == s.height
    ensures t.round <= s.round
  {
  }

  lemma HandleTimeoutOK(s: RoundState, w: World, env: Env, t: Timeout)
    requires NodeOK(s, w) && (t in s.timeouts || t.round == 0)
    ensures var s' := HandleTimeout(s, env, t);
      NodeOK(s', w) && Follows(s, s')
  {
    hide NodeOK, EnterNewRound, EnterPropose, EnterPrevote, EnterPrecommit;
    if t.height == s.height && t.round >= s.round {
      TimeoutFacts(s, w, t);
      EnterNewRoundOK(s, w, env, t.height, 0);
      EnterProposeOK(s, w, env, t.height, 0);
      EnterPrevoteOK(s, w, env, t.height, t.round);
      EnterPrecommitKeeps(s, w, env, t.height, t.round);
      EnterNewRoundOK(EnterPrecommit(s, env, t.height, t.round), w, env, t.height, t.round + 1);
    }
  }

  lemma HandleTxsAvailableOK(s: RoundState, w: World, env: Env, need: bool)
    requires NodeOK(s, w)
    ensures var s' := HandleTxsAvailable(s, env, need);
      NodeOK(s', w) && Follows(s, s')
  {
    hide NodeOK, EnterPropose;
    ScheduleOK(s, w, 0, STEP_NEW_ROUND);
    EnterProposeOK(s, w, env, s.height, 0);
  }

  /** Timeouts of later rounds come from the node's own schedule and votes carry a valid
      signature, so they were cast; everything else may be arbitrary. */
  predicate Expected(s: RoundState, cast: set<Vote>, input: Input) {
    && (input.TimeoutInput? ==> input.timeout in s.timeouts || input.timeout.round == 0)
    && (input.VoteInput? ==> input.vote in cast)
  }

  /** Handling any input keeps the invariant and never moves (height, round, step) back. */
  lemma HandleOK(s: RoundState, w: World, env: Env, input: Input)
    requires ChainOK(w.chain) && NodeOK(s, w) && Expected(s, w.cast, input)
    ensures var s' := Handle(s, w.chain, env, input);
      NodeOK(s', w) && Follows(s, s')
  {
    hide NodeOK, HandleVote, HandleProposal, HandleBlockPart, HandleTimeout, HandleTxsAvailable, ClaimMaj23;
    if s.failure.None? {
      match input
      case VoteInput(vote, peer) => HandleVoteOK(s, w, env, vote, peer);
      case ProposalInput(h, r, proposal) => HandleProposalOK(s, w, h, r, proposal);
      case BlockPartInput(h, complete, block) => HandleBlockPartOK(s, w, env, h, complete, block);
      case TimeoutInput(t) => HandleTimeoutOK(s, w, env, t);
      case TxsAvailableInput(need) => HandleTxsAvailableOK(s, w, env, need);
      case Maj23Input(kind, r, peer, id) =>
        VotersFacts(s, w);
        ClaimMaj23OK(s.votes, s.voters, kind, r, peer, id);
        MoreVotesOK(s, w, ClaimMaj23(s.votes, kind, r, peer, id));
    }
  }
}
