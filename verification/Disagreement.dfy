/** What a missing end marker can cost: a run with less than a third of the weight faulty in
    which one node forgets a lock and two nodes finalize different blocks. */
module Disagreement {
  import opened Collections
  import opened Quorum
  import opened VoteSets
  import opened RoundStates
  import opened NodeInvariant
  import opened Replays
  import opened Starts
  import opened Restarts
  import opened Runs
  import A = Agreement

  // ---------------------------------------------------------------------- three voters

  const SMALL: nat := 0
  const LARGE: nat := 1
  const FAULTY: nat := 2

  const THREE: VoterSet := [Voter(SMALL, 1), Voter(LARGE, 6), Voter(FAULTY, 3)]

  /** A chain whose voters are always these. */
  function ThreeVoters(height: int): Chain {
    Chain(height, decided => THREE)
  }

  lemma ThreeOK(height: int)
    ensures ChainOK(ThreeVoters(height))
  {
  }

  /** The two that run a correct node. */
  const CORRECT: set<nat> := {SMALL, LARGE}

  const PLAIN := Env((round, block) => true, true, false, false, false)

  lemma Weights()
    ensures HasAddress(THREE, SMALL) && HasAddress(THREE, LARGE) && HasAddress(THREE, FAULTY)
    ensures WeightAt(THREE, LARGE) == 6 && WeightAt(THREE, FAULTY) == 3
    ensures TotalWeight(THREE) == 10 && QuorumWeight(THREE) == 7
  {
    assert THREE[0].address == SMALL && THREE[1].address == LARGE && THREE[2].address == FAULTY;
    var two, one := [Voter(SMALL, 1), Voter(LARGE, 6)], [Voter(SMALL, 1)];
    assert THREE[..2] == two && two[..1] == one && one[..0] == [];
    assert TotalWeight(one) == 1 && TotalWeight(two) == 7;
    assert WeightAt(two, LARGE) == 6;
  }

  /** The vote of the large voter alone. */
  function Alone(id: BlockID): VoteSet {
    VoteSet(map[LARGE := id], 6, None, map[id := BlockVotes(false, {LARGE}, 6)], map[])
  }

  /** With that of the faulty voter, for the same block or for nil. */
  function Both(id: BlockID, second: BlockID): VoteSet {
    AddVoteToSet(Alone(id), THREE, FAULTY, second).0
  }

  lemma Votes(id: BlockID, second: BlockID)
    requires id.BlockID? && second in {id, NilBlock}
    ensures AddVoteToSet(EmptyVoteSet, THREE, LARGE, id) == (Alone(id), true)
    ensures AddVoteToSet(Alone(id), THREE, FAULTY, second) == (Both(id, second), true)
    ensures Both(id, second).sum == 9 && Both(id, second).maj23 == if second == id then Some(id) else None
    ensures !HasTwoThirdsAny(Alone(id), THREE) && HasTwoThirdsAny(Both(id, second), THREE)
  {
    hide WeightAt, QuorumWeight, TotalWeight, HasAddress;
    Weights();
    QuorumDefinition();
    var one := AddVoteToSet(EmptyVoteSet, THREE, LARGE, id).0;
    var none: set<nat> := {};
    assert none + {LARGE} == {LARGE};
    assert one.votes == map[LARGE := id] && one.byBlock == map[id := BlockVotes(false, {LARGE}, 6)];
  }

  lemma QuorumDefinition()
    ensures QuorumWeight(THREE) == TotalWeight(THREE) * 2 / 3 + 1
  {
  }

  /** A vote of a tracked round. */
  lemma AddTracked(hvs: HeightVoteSet, voters: VoterSet, vote: Vote, peer: nat)
    requires vote.round in hvs.sets
    ensures var (vs, added) := AddVoteToSet(SetOf(hvs, vote.kind, vote.round), voters, vote.voter, vote.id);
      AddVote(hvs, voters, vote, peer) == (ReplaceSet(hvs, vote.kind, vote.round, vs), added)
  {
  }

  /** Replacing one set leaves the others. */
  lemma Replaced(hvs: HeightVoteSet, kind: VoteType, round: int, vs: VoteSet)
    requires round in hvs.sets
    ensures var hvs' := ReplaceSet(hvs, kind, round, vs);
      && hvs'.round == hvs.round && hvs'.sets.Keys == hvs.sets.Keys && SetOf(hvs', kind, round) == vs
      && (forall k, r: int | k != kind || r != round :: SetOf(hvs', k, r) == SetOf(hvs, k, r))
  {
  }

  // ------------------------------------------------------- the large voter locks a block

  /** A node without a proposal in a round without votes. */
  ghost predicate Open(s: RoundState, p: nat, h: int, r: nat) {
    && s.self == p && s.height == h && s.round == r && s.step <= STEP_PROPOSE && s.failure.None? && s.voters == THREE
    && s.proposal.None? && s.proposalBlock.None? && s.proposalParts.None? && s.lockedBlock.None? && s.validRound < r
    && r in s.votes.sets && r <= s.votes.round
    && SetOf(s.votes, Prevote, r) == EmptyVoteSet && SetOf(s.votes, Precommit, r) == EmptyVoteSet
  }

  /** It has prevoted the block proposed. */
  ghost predicate Prevoted(s: RoundState, p: nat, h: int, r: nat, id: BlockID) {
    && s.self == p && s.height == h && s.round == r && s.step == STEP_PREVOTE && s.failure.None? && s.voters == THREE
    && id.BlockID? && s.proposal == Some(Proposal(-1, id.parts)) && s.proposalBlock == Some(id.hash)
    && s.proposalParts == Some(PartSet(id.parts, true)) && s.lockedBlock.None? && s.validRound < r
    && r in s.votes.sets && r <= s.votes.round && SetOf(s.votes, Precommit, r) == EmptyVoteSet
  }

  /** It has locked and precommitted it. */
  ghost predicate Locked(s: RoundState, p: nat, h: int, r: nat, id: BlockID) {
    && s.self == p && s.height == h && s.round == r && s.step == STEP_PRECOMMIT && s.failure.None? && s.voters == THREE
    && id.BlockID? && s.proposalBlock == Some(id.hash) && s.proposalParts == Some(PartSet(id.parts, true))
    && s.lockedBlock == Some(id.hash) && s.lockedParts == id.parts
    && r in s.votes.sets && r <= s.votes.round
  }

  lemma Proposes(s: RoundState, chain: Chain, p: nat, h: int, r: nat, id: BlockID)
    requires Open(s, p, h, r) && id.BlockID?
    ensures var s1 := Handle(s, chain, PLAIN, Prop(h, r, id));
      var s2 := Handle(s1, chain, PLAIN, Part(h, id));
      && s1.signed == s.signed && s1.decisions == s.decisions
      && Prevoted(s2, p, h, r, id) && SetOf(s2.votes, Prevote, r) == EmptyVoteSet && s2.decisions == s.decisions
      && s2.signed == s.signed + [SignRequest(Vote(Prevote, h, r, id, p), s.votes)]
  {
    hide TryFinalizeCommit;
  }

  lemma FirstPrevote(s: RoundState, chain: Chain, p: nat, h: int, r: nat, id: BlockID)
    requires Prevoted(s, p, h, r, id) && SetOf(s.votes, Prevote, r) == EmptyVoteSet
    ensures var s' := Handle(s, chain, PLAIN, By(LARGE, Prevote, h, r, id));
      Prevoted(s', p, h, r, id) && SetOf(s'.votes, Prevote, r) == Alone(id)
      && s'.signed == s.signed && s'.decisions == s.decisions
  {
    hide AddVote, AddVoteToSet, HasTwoThirdsAny, ReplaceSet, SetOf, Alone, EnterPrecommit, EnterPrevote, EnterNewRound;
    Votes(id, id);
    var vote := Vote(Prevote, h, r, id, LARGE);
    AddTracked(s.votes, THREE, vote, LARGE);
    Replaced(s.votes, Prevote, r, Alone(id));
    var votes := ReplaceSet(s.votes, Prevote, r, Alone(id));
    PrevotesAre(votes, r);
    NotMajority(id);
  }

  lemma NotMajority(id: BlockID)
    ensures Alone(id).maj23.None?
  {
  }

  lemma PrevotesAre(votes: HeightVoteSet, r: int)
    ensures Prevotes(votes, r) == SetOf(votes, Prevote, r) && Precommits(votes, r) == SetOf(votes, Precommit, r)
  {
  }

  lemma SecondPrevote(s: RoundState, chain: Chain, p: nat, h: int, r: nat, id: BlockID)
    requires Prevoted(s, p, h, r, id) && SetOf(s.votes, Prevote, r) == Alone(id)
    ensures var s' := Handle(s, chain, PLAIN, By(FAULTY, Prevote, h, r, id));
      && Locked(s', p, h, r, id) && SetOf(s'.votes, Precommit, r) == EmptyVoteSet && s'.decisions == s.decisions
      && |s'.signed| == |s.signed| + 1 && s.signed <= s'.signed
      && s'.signed[|s.signed|].vote == Vote(Precommit, h, r, id, p)
  {
    hide AddVote, AddVoteToSet, HasTwoThirdsAny, ReplaceSet, SetOf, Both, Alone, EnterPrevote, EnterNewRound, POLRound;
    Votes(id, id);
    var vote := Vote(Prevote, h, r, id, FAULTY);
    AddTracked(s.votes, THREE, vote, FAULTY);
    Replaced(s.votes, Prevote, r, Both(id, id));
    var votes := ReplaceSet(s.votes, Prevote, r, Both(id, id));
    PrevotesAre(votes, r);
    assert POLRound(votes, votes.round) >= r;
  }

  // ---------------------------------------------------------------------- and commits it

  /** Waiting for precommits, of which one is here. */
  lemma FirstPrecommit(s: RoundState, chain: Chain, h: int, r: nat, id: BlockID)
    requires s.height == h && s.failure.None? && s.voters == THREE && r in s.votes.sets && id.BlockID?
    requires SetOf(s.votes, Precommit, r) == EmptyVoteSet
    ensures Handle(s, chain, PLAIN, By(LARGE, Precommit, h, r, id))
         == s.(votes := ReplaceSet(s.votes, Precommit, r, Alone(id)))
  {
    hide AddVote, AddVoteToSet, HasTwoThirdsAny, ReplaceSet, SetOf, Alone, EnterPrecommit, EnterNewRound, EnterCommit,
      EnterPrecommitWait;
    Votes(id, id);
    var vote := Vote(Precommit, h, r, id, LARGE);
    AddTracked(s.votes, THREE, vote, LARGE);
    Replaced(s.votes, Precommit, r, Alone(id));
    PrevotesAre(ReplaceSet(s.votes, Precommit, r, Alone(id)), r);
    NotMajority(id);
  }

  function WithSecond(s: RoundState, r: nat, id: BlockID, second: BlockID): RoundState
    requires r in s.votes.sets
  {
    s.(votes := ReplaceSet(s.votes, Precommit, r, Both(id, second)))
  }

  lemma SecondVote(s: RoundState, h: int, r: nat, id: BlockID, second: BlockID)
    requires s.voters == THREE && r in s.votes.sets && id.BlockID? && second in {id, NilBlock}
    requires SetOf(s.votes, Precommit, r) == Alone(id)
    ensures AddVote(s.votes, THREE, Vote(Precommit, h, r, second, FAULTY), FAULTY)
         == (WithSecond(s, r, id, second).votes, true)
    ensures var votes := WithSecond(s, r, id, second).votes;
      && Precommits(votes, r) == Both(id, second) && Prevotes(votes, r) == Prevotes(s.votes, r)
      && votes.round == s.votes.round && votes.sets.Keys == s.votes.sets.Keys
      && (forall k, q: int | q != r :: SetOf(votes, k, q) == SetOf(s.votes, k, q))
  {
    hide AddVote, AddVoteToSet, HasTwoThirdsAny, ReplaceSet, Both, Alone;
    Votes(id, second);
    AddTracked(s.votes, THREE, Vote(Precommit, h, r, second, FAULTY), FAULTY);
    Replaced(s.votes, Precommit, r, Both(id, second));
    assert Precommits(s.votes, r) == SetOf(s.votes, Precommit, r);
    assert Prevotes(s.votes, r) == SetOf(s.votes, Prevote, r);
    var votes := ReplaceSet(s.votes, Precommit, r, Both(id, second));
    assert Precommits(votes, r) == SetOf(votes, Precommit, r);
    assert Prevotes(votes, r) == SetOf(votes, Prevote, r);
  }

  /** The second precommit lets a locked node finalize the block, or store it only. */
  lemma LockedCommits(s: RoundState, chain: Chain, env: Env, p: nat, h: int, r: nat, id: BlockID)
    requires Locked(s, p, h, r, id) && SetOf(s.votes, Precommit, r) == Alone(id)
    requires env in {PLAIN, PLAIN.(applyBlock := false)}
    ensures var s' := Handle(s, chain, env, By(FAULTY, Precommit, h, r, id));
      var votes := WithSecond(s, r, id, id).votes;
      && s'.signed == s.signed
      && s'.decisions == (if env.applyBlock then s.decisions + [Decision(id, r, votes)] else s.decisions)
      && (!env.applyBlock ==> s'.height == h && s'.voters == THREE && s'.votes == votes)
  {
    hide AddVote, HasTwoThirdsAny, ReplaceSet, Both, Alone, EnterNewRound, EnterPrecommit, EnterPrecommitWait, Prevotes,
      Precommits, Hashes;
    SecondVote(s, h, r, id, id);
    Votes(id, id);
    InRound(WithSecond(s, r, id, id), env, h, r);
  }

  lemma InRound(s: RoundState, env: Env, h: int, r: nat)
    requires s.round == r && s.step == STEP_PRECOMMIT
    ensures EnterNewRound(s, env, h, r) == s && EnterPrecommit(s, env, h, r) == s
  {
  }

  // ----------------------------------------------------------- a node that only follows

  /** At rest nothing is proposed, voted or locked. */
  lemma RestIsOpen(s: RoundState, chain: Chain)
    requires AtRest(s, chain) && s.voters == THREE
    ensures s.height == chain.initialHeight + |s.decisions| && s.lockedBlock.None?
    ensures Open(s, s.self, s.height, 0) && s.step == STEP_NEW_HEIGHT && s.votes == NewHeightVoteSet
  {
    hide StoredCommit, Hashes;
  }

  /** Waiting for the height to begin, with the first precommit here. */
  ghost predicate Waiting(s: RoundState, h: int, id: BlockID) {
    && s.height == h && s.round == 0 && s.step == STEP_NEW_HEIGHT && s.failure.None? && s.voters == THREE && id.BlockID?
    && s.proposal.None? && s.proposalBlock.None? && s.proposalParts.None? && s.lockedBlock.None? && s.validRound == -1
    && s.votes == ReplaceSet(NewHeightVoteSet, Precommit, 0, Alone(id))
  }

  lemma WaitingVotes(s: RoundState, h: int, id: BlockID, second: BlockID)
    requires Waiting(s, h, id) && second in {id, NilBlock}
    ensures 0 in s.votes.sets && SetOf(s.votes, Precommit, 0) == Alone(id)
    ensures AddVote(s.votes, THREE, Vote(Precommit, h, 0, second, FAULTY), FAULTY)
         == (WithSecond(s, 0, id, second).votes, true)
    ensures var votes := WithSecond(s, 0, id, second).votes;
      && Precommits(votes, 0) == Both(id, second) && Prevotes(votes, 0) == EmptyVoteSet && votes.round == 0
      && CanSetRound(votes, 1)
    ensures var votes := SetRound(WithSecond(s, 0, id, second).votes, 1);
      && Precommits(votes, 0) == Both(id, second) && Prevotes(votes, 0) == EmptyVoteSet && votes.round == 1
      && Prevotes(votes, 1) == EmptyVoteSet && Precommits(votes, 1) == EmptyVoteSet
  {
    hide AddVote, AddVoteToSet, Both, Alone, WithSecond, TrackRounds;
    Replaced(NewHeightVoteSet, Precommit, 0, Alone(id));
    SecondVote(s, h, 0, id, second);
    var votes := WithSecond(s, 0, id, second).votes;
    SetRoundSame(votes, 1);
    forall r | r in {0, 1}
      ensures Precommits(SetRound(votes, 1), r) == Precommits(votes, r)
      ensures Prevotes(SetRound(votes, 1), r) == Prevotes(votes, r)
    {
      PrevotesAre(votes, r);
      PrevotesAre(SetRound(votes, 1), r);
    }
    PrevotesAre(votes, 1);
    assert SetOf(votes, Prevote, 1) == SetOf(s.votes, Prevote, 1) == SetOf(NewHeightVoteSet, Prevote, 1);
    assert SetOf(votes, Precommit, 1) == SetOf(s.votes, Precommit, 1) == SetOf(NewHeightVoteSet, Precommit, 1);
    assert Prevotes(s.votes, 0) == SetOf(s.votes, Prevote, 0) == SetOf(NewHeightVoteSet, Prevote, 0);
  }

  /** The second precommit takes it to the commit step, where it asks for the block. */
  lemma FollowsCommit(s: RoundState, chain: Chain, h: int, id: BlockID)
    requires Waiting(s, h, id)
    ensures var s' := Handle(s, chain, PLAIN, By(FAULTY, Precommit, h, 0, id));
      && s'.height == h && s'.round == 0 && s'.step == STEP_COMMIT && s'.commitRound == 0 && s'.failure.None?
      && s'.proposalBlock.None? && s'.proposalParts == Some(PartSet(id.parts, false))
      && s'.decisions == s.decisions && Precommits(s'.votes, 0).maj23 == Some(id) && Prevotes(s'.votes, 0).maj23.None?
  {
    hide AddVote, AddVoteToSet, Both, Alone, WithSecond, SetRound, HasTwoThirdsAny, ReplaceSet, Prevotes, Precommits;
    WaitingVotes(s, h, id, id);
    Votes(id, id);
    var votes := WithSecond(s, 0, id, id).votes;
    var s1 := s.(votes := votes);
    var s2 := EnterNewRound(s1, PLAIN, h, 0);
    assert s2.step == STEP_PROPOSE && s2.votes == SetRound(votes, 1);
    var s3 := EnterPrecommit(s2, PLAIN, h, 0);
    assert s3.step == STEP_PRECOMMIT && s3.votes == s2.votes;
  }

  /** The block is all it lacks. */
  lemma FollowsBlock(s: RoundState, chain: Chain, h: int, id: BlockID)
    requires s.height == h && s.round == 0 && s.step == STEP_COMMIT && s.commitRound == 0
    requires s.failure.None? && id.BlockID?
    requires s.proposalBlock.None? && s.proposalParts == Some(PartSet(id.parts, false))
    requires Precommits(s.votes, 0).maj23 == Some(id) && Prevotes(s.votes, 0).maj23.None?
    ensures Handle(s, chain, PLAIN, Part(h, id)).decisions == s.decisions + [Decision(id, 0, s.votes)]
  {
    hide Prevotes, Precommits, Hashes;
  }

  // ------------------------------------------------------------------------ a new round

  /** A precommit for a block and one for nil, of more than two thirds together, begin a
      node's height for it and start a timeout. */
  lemma Undecided(s: RoundState, chain: Chain, h: int, id: BlockID)
    requires Waiting(s, h, id)
    ensures var s' := Handle(s, chain, PLAIN, By(FAULTY, Precommit, h, 0, NilBlock));
      && s' == s.(step := STEP_PROPOSE, votes := SetRound(WithSecond(s, 0, id, NilBlock).votes, 1),
                  timeouts := s'.timeouts, triggeredTimeoutPrecommit := true)
      && Timeout(h, 0, STEP_PRECOMMIT_WAIT) in s'.timeouts
  {
    hide AddVote, AddVoteToSet, Both, Alone, WithSecond, SetRound, HasTwoThirdsAny, ReplaceSet, Prevotes, Precommits;
    WaitingVotes(s, h, id, NilBlock);
    Votes(id, NilBlock);
    var votes := WithSecond(s, 0, id, NilBlock).votes;
    var s1 := s.(votes := votes);
    var s2 := EnterNewRound(s1, PLAIN, h, 0);
    assert s2 == s1.(step := STEP_PROPOSE, votes := SetRound(votes, 1),
      timeouts := s2.timeouts, triggeredTimeoutPrecommit := false);
  }

  /** The timeout opens the next round. */
  lemma NextRound(s: RoundState, chain: Chain, h: int)
    requires s.self == LARGE && s.height == h && s.round == 0
    requires s.step == STEP_PROPOSE && s.failure.None? && s.voters == THREE
    requires s.lockedBlock.None? && s.validRound == -1 && s.votes.round == 1 && Prevotes(s.votes, 0).maj23.None?
    requires Prevotes(s.votes, 1) == EmptyVoteSet && Precommits(s.votes, 1) == EmptyVoteSet
    ensures var s' := Handle(s, chain, PLAIN, TimeoutInput(Timeout(h, 0, STEP_PRECOMMIT_WAIT)));
      Open(s', LARGE, h, 1) && s'.decisions == s.decisions && |s'.signed| == |s.signed| + 1 && s.signed <= s'.signed
  {
    hide SetRound, ReplaceSet, Prevotes, Precommits;
    var s1 := EnterPrecommit(s, PLAIN, h, 0);
    assert s1.step == STEP_PRECOMMIT && s1.votes == s.votes;
    SetRoundSame(s.votes, 2);
    var votes := SetRound(s.votes, 2);
    assert 1 in votes.sets && votes.round == 2 by {
      Tracks(s.votes);
    }
    PrevotesAre(s.votes, 1);
    PrevotesAre(votes, 1);
  }

  lemma Tracks(hvs: HeightVoteSet)
    requires hvs.round == 1
    ensures 1 in SetRound(hvs, 2).sets && SetRound(hvs, 2).round == 2 && CanSetRound(hvs, 2)
  {
  }

  // ------------------------------------------------------------------ stretches of a run

  /** The large voter locks a block that the faulty one prevotes with it, and its precommit
      is out. */
  lemma Locks(sys: System, chain: Chain, h: int, r: nat, id: BlockID) returns (sys': System)
    requires ChainOK(chain)
    requires Good(sys, chain, CORRECT) && Open(At(sys, chain, LARGE), LARGE, h, r) && id.BlockID?
    ensures Good(sys', chain, CORRECT) && MovedOn(sys, sys', chain, LARGE)
    ensures var s' := At(sys', chain, LARGE);
      && Locked(s', LARGE, h, r, id) && SetOf(s'.votes, Precommit, r) == EmptyVoteSet
      && s'.decisions == At(sys, chain, LARGE).decisions
    ensures Vote(Precommit, h, r, id, LARGE) in sys'.log
  {
    hide ChainOK, A.Asked, Handle, At, Of, Good, Open, Prevoted, Locked, SetOf;
    var sys1 := Cheat(sys, chain, CORRECT, Vote(Prevote, h, r, id, FAULTY));
    var s := At(sys1, chain, LARGE);
    Proposes(s, chain, LARGE, h, r, id);
    var s1 := Handle(s, chain, PLAIN, Prop(h, r, id));
    var s2 := Handle(s1, chain, PLAIN, Part(h, id));
    var sys2 := DoPlain(sys1, chain, CORRECT, LARGE, PLAIN, Prop(h, r, id), []);
    AskedLast(s1, s2, Vote(Prevote, h, r, id, LARGE));
    var sys3 := DoPlain(sys2, chain, CORRECT, LARGE, PLAIN, Part(h, id), [Vote(Prevote, h, r, id, LARGE)]);
    FirstPrevote(s2, chain, LARGE, h, r, id);
    var s3 := Handle(s2, chain, PLAIN, By(LARGE, Prevote, h, r, id));
    var sys4 := DoPlain(sys3, chain, CORRECT, LARGE, PLAIN, By(LARGE, Prevote, h, r, id), []);
    SecondPrevote(s3, chain, LARGE, h, r, id);
    var s4 := Handle(s3, chain, PLAIN, By(FAULTY, Prevote, h, r, id));
    AskedLast(s3, s4, Vote(Precommit, h, r, id, LARGE));
    sys' := DoPlain(sys4, chain, CORRECT, LARGE, PLAIN, By(FAULTY, Prevote, h, r, id),
      [Vote(Precommit, h, r, id, LARGE)]);
  }

  /** The small voter takes the first precommit of its height. */
  lemma TakesFirst(s: RoundState, chain: Chain, h: int, id: BlockID)
    requires AtRest(s, chain) && s.voters == THREE && s.height == h && id.BlockID?
    ensures var s' := Handle(s, chain, PLAIN, By(LARGE, Precommit, h, 0, id));
      Waiting(s', h, id) && s'.decisions == s.decisions && s'.signed == s.signed && s'.self == s.self
  {
    hide Handle, ReplaceSet, StoredCommit, Hashes, Alone;
    assert 0 in NewHeightVoteSet.sets && SetOf(NewHeightVoteSet, Precommit, 0) == EmptyVoteSet;
    FirstPrecommit(s, chain, h, 0, id);
  }

  /** The small voter finalizes a block on the precommits of the other two. */
  lemma SmallFollows(sys: System, chain: Chain, correct: set<nat>, h: int, id: BlockID) returns (sys': System)
    requires ChainOK(chain) && SMALL in correct
    requires Good(sys, chain, correct) && AtRest(At(sys, chain, SMALL), chain) && id.BlockID?
    requires At(sys, chain, SMALL).height == h && At(sys, chain, SMALL).voters == THREE
    requires Vote(Precommit, h, 0, id, LARGE) in sys.log && Vote(Precommit, h, 0, id, FAULTY) in sys.log
    ensures Good(sys', chain, correct) && sys'.log == sys.log
    ensures forall q | q != SMALL :: Of(sys', chain, q) == Of(sys, chain, q) && At(sys', chain, q) == At(sys, chain, q)
    ensures Of(sys', chain, SMALL) == Node(At(sys', chain, SMALL), [], 0, Of(sys, chain, SMALL).ended + {h})
    ensures var s, s' := At(sys, chain, SMALL), At(sys', chain, SMALL);
      && AtRest(s', chain) && |s'.decisions| == |s.decisions| + 1 && s.decisions <= s'.decisions
      && s'.decisions[|s.decisions|].id == id
  {
    hide ChainOK, A.Asked, Handle, At, Of, Good, AtRest, Waiting;
    var s := At(sys, chain, SMALL);
    TakesFirst(s, chain, h, id);
    var s1 := Handle(s, chain, PLAIN, By(LARGE, Precommit, h, 0, id));
    var sys1 := DoPlain(sys, chain, correct, SMALL, PLAIN, By(LARGE, Precommit, h, 0, id), []);
    FollowsCommit(s1, chain, h, id);
    var s2 := Handle(s1, chain, PLAIN, By(FAULTY, Precommit, h, 0, id));
    var sys2 := DoPlain(sys1, chain, correct, SMALL, PLAIN, By(FAULTY, Precommit, h, 0, id), []);
    FollowsBlock(s2, chain, h, id);
    FinalizingRests(s2, chain, PLAIN, Part(h, id));
    sys' := DoEnds(sys2, chain, correct, SMALL, PLAIN, Part(h, id));
  }

  // --------------------------------------------------------------------------- the run

  /** Both nodes at rest at the second height, the large voter without the end of the first
      one marked: it died after storing the block. */
  ghost predicate SecondHeight(sys: System, chain: Chain) {
    && Good(sys, chain, CORRECT)
    && (forall p | p in CORRECT ::
          && AtRest(At(sys, chain, p), chain) && At(sys, chain, p).self == p
          && |At(sys, chain, p).decisions| == 1 && At(sys, chain, p).decisions[0].id == BlockID(5, 5))
    && Of(sys, chain, LARGE).ended == {0} && Of(sys, chain, LARGE).entry == At(sys, chain, LARGE)
  }

  lemma RestFacts(s: RoundState, h0: int)
    requires AtRest(s, ThreeVoters(h0))
    ensures s.height == h0 + |s.decisions| && s.voters == THREE && s.lockedBlock.None?
    ensures Open(s, s.self, h0 + |s.decisions|, 0)
  {
    RestIsOpen(s, ThreeVoters(h0));
  }

  /** It has the precommits for the block it is locked on, and stores the block. */
  lemma Stores(sys: System, chain: Chain, h: int, r: nat, id: BlockID, env: Env) returns (sys': System)
    requires ChainOK(chain)
    requires Good(sys, chain, CORRECT) && Locked(At(sys, chain, LARGE), LARGE, h, r, id)
    requires SetOf(At(sys, chain, LARGE).votes, Precommit, r) == EmptyVoteSet
    requires env in {PLAIN, PLAIN.(applyBlock := false)}
    requires Vote(Precommit, h, r, id, LARGE) in sys.log && Vote(Precommit, h, r, id, FAULTY) in sys.log
    ensures Good(sys', chain, CORRECT) && sys'.log == sys.log
    ensures Of(sys', chain, SMALL) == Of(sys, chain, SMALL) && At(sys', chain, SMALL) == At(sys, chain, SMALL)
    ensures !env.applyBlock ==> MovedOn(sys, sys', chain, LARGE)
    ensures var s, s' := At(sys, chain, LARGE), At(sys', chain, LARGE);
      && s'.signed == s.signed && |s'.decisions| == |s.decisions| + (if env.applyBlock then 1 else 0)
      && s.decisions <= s'.decisions && (env.applyBlock ==> s'.decisions[|s.decisions|].id == id)
      && (!env.applyBlock ==>
            s'.height == h && s'.voters == THREE && Precommits(s'.votes, r).maj23 == Some(id) && s'.self == LARGE)
  {
    hide ChainOK, A.Asked, Handle, At, Of, Good, SetOf, Alone, Both, ReplaceSet, Handled;
    var s := At(sys, chain, LARGE);
    FirstPrecommit(s, chain, h, r, id);
    Replaced(s.votes, Precommit, r, Alone(id));
    var s1 := Handle(s, chain, PLAIN, By(LARGE, Precommit, h, r, id));
    var sys1 := DoPlain(sys, chain, CORRECT, LARGE, PLAIN, By(LARGE, Precommit, h, r, id), []);
    LockedCommits(s1, chain, env, LARGE, h, r, id);
    SecondVote(s1, h, r, id, id);
    Votes(id, id);
    if env.applyBlock {
      sys' := Do(sys1, chain, CORRECT, LARGE, env, By(FAULTY, Precommit, h, r, id), []);
    } else {
      sys' := DoPlain(sys1, chain, CORRECT, LARGE, env, By(FAULTY, Precommit, h, r, id), []);
      GoodFacts(sys', chain, CORRECT, LARGE);
    }
  }

  lemma ReachesSecond(h0: int) returns (sys: System)
    ensures SecondHeight(sys, ThreeVoters(h0))
  {
    ThreeOK(h0);
    hide Good, AtRest, Locked, Open, SetOf, Precommits, Init, ChainOK, Fresh, At;
    var chain, first := ThreeVoters(h0), BlockID(5, 5);
    var sys0 := Begins(chain, CORRECT);
    FirstRests(chain, LARGE);
    FirstRests(chain, SMALL);
    FirstHas(chain, LARGE);
    FirstHas(chain, SMALL);
    RestFacts(At(sys0, chain, LARGE), h0);
    RestFacts(At(sys0, chain, SMALL), h0);
    var sys1 := Locks(sys0, chain, h0, 0, first);
    var sys2 := Cheat(sys1, chain, CORRECT, Vote(Precommit, h0, 0, first, FAULTY));
    var sys3 := Stores(sys2, chain, h0, 0, first, PLAIN.(applyBlock := false));
    var d := Decision(first, 0, At(sys3, chain, LARGE).votes);
    var sys4 := DiesStoring(sys3, chain, CORRECT, LARGE, d);
    FreshHas(WithBlock(At(sys3, chain, LARGE), d), chain);
    RestFacts(At(sys4, chain, SMALL), h0);
    sys := SmallFollows(sys4, chain, CORRECT, h0, first);
    GoodFacts(sys, chain, CORRECT, SMALL);
  }

  lemma FirstHas(chain: Chain, p: nat)
    ensures Init(chain, p).self == p && Init(chain, p).decisions == []
  {
  }

  const KEPT := BlockID(7, 7)
  const OTHER := BlockID(9, 9)

  /** The small voter has finalized a block of the second height on a precommit of the large
      one, which is at rest at that height again. */
  ghost predicate Forgotten(sys: System, chain: Chain) {
    && Good(sys, chain, CORRECT)
    && |At(sys, chain, SMALL).decisions| == 2 && At(sys, chain, SMALL).decisions[1].id == KEPT
    && AtRest(At(sys, chain, LARGE), chain) && At(sys, chain, LARGE).self == LARGE
    && |At(sys, chain, LARGE).decisions| == 1
    && Vote(Precommit, chain.initialHeight + 1, 0, KEPT, LARGE) in sys.log
  }

  /** Two deaths: the first one after storing a block, before its end is marked; the second
      one at the next height, after a lock. Every input was written and flushed, and the
      lock is gone while the precommit is out. */
  lemma MarkerForgotten(h0: int) returns (before: System, sys: System)
    requires h0 != 0
    ensures Good(before, ThreeVoters(h0), CORRECT) && Locked(At(before, ThreeVoters(h0), LARGE), LARGE, h0 + 1, 0, KEPT)
    ensures !Marked(Of(before, ThreeVoters(h0), LARGE))
    ensures Of(before, ThreeVoters(h0), LARGE).synced == |Of(before, ThreeVoters(h0), LARGE).turns|
    ensures Forgotten(sys, ThreeVoters(h0)) && sys.log == before.log
    ensures At(sys, ThreeVoters(h0), LARGE).lockedBlock.None?
  {
    ThreeOK(h0);
    hide Good, AtRest, Locked, Open, SetOf, Fresh, At, ChainOK;
    var chain, h := ThreeVoters(h0), h0 + 1;
    var sys1 := ReachesSecond(h0);
    RestFacts(At(sys1, chain, LARGE), h0);
    RestFacts(At(sys1, chain, SMALL), h0);
    var sys2 := Locks(sys1, chain, h, 0, KEPT);
    var sys3 := Cheat(sys2, chain, CORRECT, Vote(Precommit, h, 0, KEPT, FAULTY));
    before := SmallFollows(sys3, chain, CORRECT, h, KEPT);
    sys := DiesUnmarked(before, chain, CORRECT, LARGE);
    FreshHas(Of(before, chain, LARGE).entry, chain);
    RestFacts(At(sys, chain, LARGE), h0);
  }

  /** The large voter leaves round 0 on its own old precommit and one for nil. */
  lemma Reopens(sys: System, chain: Chain) returns (sys': System)
    requires ChainOK(chain)
    requires Forgotten(sys, chain) && At(sys, chain, LARGE).voters == THREE
    ensures Good(sys', chain, CORRECT)
    ensures Of(sys', chain, SMALL) == Of(sys, chain, SMALL) && At(sys', chain, SMALL) == At(sys, chain, SMALL)
    ensures Open(At(sys', chain, LARGE), LARGE, chain.initialHeight + 1, 1)
    ensures At(sys', chain, LARGE).decisions == At(sys, chain, LARGE).decisions
  {
    hide ChainOK;
    var h := chain.initialHeight + 1;
    hide Good, AtRest, Locked, Open, SetOf, Handle, At, Waiting, Prevotes, Precommits, SetRound, WithSecond, Of, Both;
    var sys1 := Cheat(sys, chain, CORRECT, Vote(Precommit, h, 0, NilBlock, FAULTY));
    var s := At(sys1, chain, LARGE);
    RestIsOpen(s, chain);
    TakesFirst(s, chain, h, KEPT);
    var s1 := Handle(s, chain, PLAIN, By(LARGE, Precommit, h, 0, KEPT));
    var sys2 := DoPlain(sys1, chain, CORRECT, LARGE, PLAIN, By(LARGE, Precommit, h, 0, KEPT), []);
    Undecided(s1, chain, h, KEPT);
    WaitingVotes(s1, h, KEPT, NilBlock);
    var s2 := Handle(s1, chain, PLAIN, By(FAULTY, Precommit, h, 0, NilBlock));
    var sys3 := DoPlain(sys2, chain, CORRECT, LARGE, PLAIN, By(FAULTY, Precommit, h, 0, NilBlock), []);
    WaitingFacts(s1, h, KEPT);
    NextRound(s2, chain, h);
    sys' := DoPlain(sys3, chain, CORRECT, LARGE, PLAIN, TimeoutInput(Timeout(h, 0, STEP_PRECOMMIT_WAIT)), []);
  }

  lemma WaitingFacts(s: RoundState, h: int, id: BlockID)
    requires Waiting(s, h, id)
    ensures s.height == h && s.round == 0 && s.failure.None? && s.voters == THREE
    ensures s.lockedBlock.None? && s.validRound == -1
    ensures EmptyVoteSet.maj23.None?
  {
  }

  lemma {:induction false} FaultyWeight(f: set<nat>)
    requires f !! {SMALL, LARGE}
    ensures LessThanThird(THREE, f)
  {
    Weights();
    var two, one := [Voter(SMALL, 1), Voter(LARGE, 6)], [Voter(SMALL, 1)];
    assert THREE[..2] == two && two[..1] == one && one[..0] == [];
    assert WeightOf(one, f) == 0 && WeightOf(two, f) == 0;
  }

  lemma FewAreFaulty(sys: System, h0: int)
    requires Good(sys, ThreeVoters(h0), CORRECT)
    ensures A.FaultBound(Live(sys, ThreeVoters(h0)), ThreeVoters(h0))
  {
    var chain := ThreeVoters(h0);
    var live := Live(sys, chain);
    hide Fine, Now, LessThanThird, Reachable;
    assert live.nodes.Keys == {SMALL, LARGE};
    forall f: set<nat> | f !! {SMALL, LARGE} ensures LessThanThird(THREE, f) {
      FaultyWeight(f);
    }
  }

  /** Two correct nodes finalize different blocks at one height, with less than a third of
      the weight faulty: a start without its marker is all it takes. */
  lemma AgreementLost(h0: int) returns (sys: System)
    requires h0 != 0
    ensures Reachable(sys, ThreeVoters(h0)) && A.FaultBound(Live(sys, ThreeVoters(h0)), ThreeVoters(h0))
    ensures SMALL in sys.nodes && LARGE in sys.nodes
    ensures var a, b := Now(ThreeVoters(h0), sys.nodes[SMALL]), Now(ThreeVoters(h0), sys.nodes[LARGE]);
      && |a.decisions| == |b.decisions| == 2
      && a.decisions[1].id == KEPT && b.decisions[1].id == OTHER
  {
    hide Good, AtRest, Locked, Open, SetOf, At, Of, A.FaultBound, Now, ChainOK;
    var chain, h := ThreeVoters(h0), h0 + 1;
    ThreeOK(h0);
    var _, sys1 := MarkerForgotten(h0);
    RestFacts(At(sys1, chain, LARGE), h0);
    var sys2 := Reopens(sys1, chain);
    var sys3 := Locks(sys2, chain, h, 1, OTHER);
    var sys4 := Cheat(sys3, chain, CORRECT, Vote(Precommit, h, 1, OTHER, FAULTY));
    sys := Stores(sys4, chain, h, 1, OTHER, PLAIN);
    FewAreFaulty(sys, h0);
    GoodFacts(sys, chain, CORRECT, SMALL);
    GoodFacts(sys, chain, CORRECT, LARGE);
    GoodReachable(sys, chain);
  }

  lemma GoodReachable(sys: System, chain: Chain)
    requires Good(sys, chain, CORRECT)
    ensures Reachable(sys, chain)
  {
  }
}
