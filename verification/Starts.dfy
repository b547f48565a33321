/** A new start of a node. It begins at the height after the blocks in its store, knows
    nothing of that height, and may then be given the written inputs again. What comes out
    is the state of then, as far as anything depends on it. */
module Starts {
  import opened Collections
  import opened Quorum
  import opened VoteSets
  import opened RoundStates
  import opened NodeInvariant
  import opened Replays

  // -------------------------------------------------------------- alike but for the wait

  /** Timeouts of later rounds than the first. */
  function Later(timeouts: set<Timeout>): set<Timeout> {
    set t | t in timeouts && t.round > 0
  }

  /** The same but for the votes of the last commit and timeouts of round 0. */
  ghost predicate Alike(a: RoundState, b: RoundState) {
    && b == a.(lastCommit := b.lastCommit, timeouts := b.timeouts)
    && (a.lastCommit.None? <==> b.lastCommit.None?)
    && Later(a.timeouts) == Later(b.timeouts)
  }

  lemma AlikeSchedule(a: RoundState, b: RoundState, height: int, round: nat, step: int)
    requires Alike(a, b)
    ensures Alike(Schedule(a, height, round, step), Schedule(b, height, round, step))
  {
    var t := Timeout(height, round, step);
    assert Later(a.timeouts + {t}) == Later(a.timeouts) + Later({t});
    assert Later(b.timeouts + {t}) == Later(b.timeouts) + Later({t});
  }

  lemma AlikeEnterPrevote(a: RoundState, b: RoundState, env: Env, height: int, round: nat)
    requires Alike(a, b)
    ensures Alike(EnterPrevote(a, env, height, round), EnterPrevote(b, env, height, round))
  {
    hide Later;
  }

  lemma AlikeEnterPropose(a: RoundState, b: RoundState, env: Env, height: int, round: nat)
    requires Alike(a, b)
    ensures Alike(EnterPropose(a, env, height, round), EnterPropose(b, env, height, round))
  {
    hide Later, EnterPrevote;
    AlikeSchedule(a, b, height, round, STEP_PROPOSE);
    var a1 := SetStep(Schedule(a, height, round, STEP_PROPOSE), round, STEP_PROPOSE);
    var b1 := SetStep(Schedule(b, height, round, STEP_PROPOSE), round, STEP_PROPOSE);
    AlikeEnterPrevote(a1, b1, env, height, round);
  }

  lemma AlikeEnterNewRound(a: RoundState, b: RoundState, env: Env, height: int, round: nat)
    requires Alike(a, b)
    ensures Alike(EnterNewRound(a, env, height, round), EnterNewRound(b, env, height, round))
  {
    hide Later, EnterPropose, SetRound;
    var a1, b1 := StartRound(a, round), StartRound(b, round);
    AlikeSchedule(a1, b1, height, round, STEP_NEW_ROUND);
    AlikeEnterPropose(a1, b1, env, height, round);
  }

  lemma AlikeWaits(a: RoundState, b: RoundState, height: int, round: nat)
    requires Alike(a, b)
    ensures Alike(EnterPrevoteWait(a, height, round), EnterPrevoteWait(b, height, round))
    ensures Alike(EnterPrecommitWait(a, height, round), EnterPrecommitWait(b, height, round))
  {
    hide Later, HasTwoThirdsAny;
    AlikeSchedule(a, b, height, round, STEP_PREVOTE_WAIT);
    AlikeSchedule(a, b, height, round, STEP_PRECOMMIT_WAIT);
  }

  lemma AlikePrecommitBlock(a: RoundState, b: RoundState, env: Env, round: nat, id: BlockID)
    requires Alike(a, b) && id.BlockID?
    ensures Alike(PrecommitBlock(a, env, round, id), PrecommitBlock(b, env, round, id))
  {
    hide Later;
  }

  lemma AlikeEnterPrecommit(a: RoundState, b: RoundState, env: Env, height: int, round: nat)
    requires Alike(a, b)
    ensures Alike(EnterPrecommit(a, env, height, round), EnterPrecommit(b, env, height, round))
  {
    hide Later, PrecommitBlock, POLRound;
    var maj := Prevotes(a.votes, round).maj23;
    if maj.Some? && maj.value.BlockID? {
      AlikePrecommitBlock(a, b, env, round, maj.value);
    }
  }

  lemma AlikeFinalize(a: RoundState, b: RoundState, chain: Chain, env: Env, height: int)
    requires Alike(a, b)
    ensures Alike(FinalizeCommit(a, chain, env, height), FinalizeCommit(b, chain, env, height))
  {
    hide Later, Hashes;
    var maj := Precommits(a.votes, a.commitRound).maj23;
    if maj.Some? {
      var d := Decision(maj.value, a.commitRound, a.votes);
      var a1 := UpdateToState(a.(decisions := a.decisions + [d]), chain);
      var b1 := UpdateToState(b.(decisions := b.decisions + [d]), chain);
      AlikeSchedule(a1, b1, a1.height, 0, STEP_NEW_HEIGHT);
    }
  }

  lemma AlikeTryFinalize(a: RoundState, b: RoundState, chain: Chain, env: Env, height: int)
    requires Alike(a, b)
    ensures Alike(TryFinalizeCommit(a, chain, env, height), TryFinalizeCommit(b, chain, env, height))
  {
    hide Later, FinalizeCommit;
    AlikeFinalize(a, b, chain, env, height);
  }

  lemma AlikeEnterCommit(a: RoundState, b: RoundState, chain: Chain, env: Env, height: int, commitRound: int)
    requires Alike(a, b)
    ensures Alike(EnterCommit(a, chain, env, height, commitRound), EnterCommit(b, chain, env, height, commitRound))
  {
    hide Later, TryFinalizeCommit;
    var maj := Precommits(a.votes, commitRound).maj23;
    if maj.Some? {
      var a1 := CommitStep(a, commitRound, maj.value);
      AlikeTryFinalize(a1, CommitStep(b, commitRound, maj.value), chain, env, height);
    }
  }

  /** What enterCommit does before it tries to finalize. */
  function CommitStep(s: RoundState, commitRound: int, id: BlockID): RoundState {
    var s1 := if HashesTo(s.lockedBlock, id)
              then s.(proposalBlock := s.lockedBlock, proposalParts := Some(PartSet(s.lockedParts, true)))
              else s;
    var s2 := if HashesTo(s1.proposalBlock, id) || HasHeader(s1.proposalParts, PartsOf(id))
              then s1 else ExpectParts(s1.(proposalBlock := None), PartsOf(id));
    SetStep(s2, s2.round, STEP_COMMIT).(commitRound := commitRound)
  }

  lemma AlikeOnPolka(a: RoundState, b: RoundState, round: nat, id: BlockID)
    requires Alike(a, b)
    ensures Alike(OnPolka(a, round, id), OnPolka(b, round, id))
  {
    hide Later, ValidOnPolka;
    var a1, b1 := UnlockOnPolka(a, round, id), UnlockOnPolka(b, round, id);
    assert Alike(a1, b1);
    AlikeValidOnPolka(a1, b1, round, id);
  }

  lemma AlikeValidOnPolka(a: RoundState, b: RoundState, round: nat, id: BlockID)
    requires Alike(a, b)
    ensures Alike(ValidOnPolka(a, round, id), ValidOnPolka(b, round, id))
  {
    hide Later;
  }

  lemma AlikeOnPrevote(a: RoundState, b: RoundState, env: Env, round: nat)
    requires Alike(a, b)
    ensures Alike(OnPrevote(a, env, round), OnPrevote(b, env, round))
  {
    hide Later, OnPolka, EnterNewRound, EnterPrevote, EnterPrecommit, EnterPrevoteWait, HasTwoThirdsAny;
    var maj := Prevotes(a.votes, round).maj23;
    var a1 := if maj.Some? then OnPolka(a, round, maj.value) else a;
    var b1 := if maj.Some? then OnPolka(b, round, maj.value) else b;
    if maj.Some? {
      AlikeOnPolka(a, b, round, maj.value);
    }
    AlikeEnterNewRound(a1, b1, env, a1.height, round);
    AlikeEnterPrecommit(a1, b1, env, a1.height, round);
    AlikeWaits(a1, b1, a1.height, round);
    AlikeEnterPrevote(a1, b1, env, a1.height, a1.round);
  }

  lemma AlikeOnPrecommit(a: RoundState, b: RoundState, chain: Chain, env: Env, round: nat)
    requires Alike(a, b)
    ensures Alike(OnPrecommit(a, chain, env, round), OnPrecommit(b, chain, env, round))
  {
    hide Later, EnterNewRound, EnterPrecommit, EnterPrecommitWait, EnterCommit, HasTwoThirdsAny;
    var a1, b1 := EnterNewRound(a, env, a.height, round), EnterNewRound(b, env, b.height, round);
    AlikeEnterNewRound(a, b, env, a.height, round);
    var a2, b2 := EnterPrecommit(a1, env, a.height, round), EnterPrecommit(b1, env, b.height, round);
    AlikeEnterPrecommit(a1, b1, env, a.height, round);
    AlikeWaits(a1, b1, a.height, round);
    AlikeWaits(a2, b2, a.height, round);
    var a3, b3 := EnterCommit(a2, chain, env, a.height, round), EnterCommit(b2, chain, env, b.height, round);
    AlikeEnterCommit(a2, b2, chain, env, a.height, round);
    AlikeEnterNewRound(a3, b3, env, a3.height, 0);
  }

  lemma AlikeCompleteProposal(a: RoundState, b: RoundState, chain: Chain, env: Env, height: int)
    requires Alike(a, b)
    ensures Alike(HandleCompleteProposal(a, chain, env, height), HandleCompleteProposal(b, chain, env, height))
  {
    hide Later, EnterPrevote, EnterPrecommit, TryFinalizeCommit;
    var maj := Prevotes(a.votes, a.round).maj23;
    var valid := maj.Some? && maj.value.BlockID? && a.validRound < a.round && HashesTo(a.proposalBlock, maj.value);
    var a1 := if valid then a.(validRound := a.round, validBlock := a.proposalBlock) else a;
    var b1 := if valid then b.(validRound := b.round, validBlock := b.proposalBlock) else b;
    AlikeEnterPrevote(a1, b1, env, height, a1.round);
    var a2, b2 := EnterPrevote(a1, env, height, a1.round), EnterPrevote(b1, env, height, b1.round);
    AlikeEnterPrecommit(a2, b2, env, height, a2.round);
    AlikeTryFinalize(a1, b1, chain, env, height);
  }

  lemma AlikeBlockPart(a: RoundState, b: RoundState, chain: Chain, env: Env, height: int, complete: bool,
                       block: Option<int>)
    requires Alike(a, b)
    ensures Alike(HandleBlockPart(a, chain, env, height, complete, block),
                  HandleBlockPart(b, chain, env, height, complete, block))
  {
    hide Later, HandleCompleteProposal;
    if a.proposalParts.Some? {
      var parts := Some(a.proposalParts.value.(complete := true));
      var proposed := if block.Some? then block else a.proposalBlock;
      AlikeCompleteProposal(a.(proposalParts := parts, proposalBlock := proposed),
                            b.(proposalParts := parts, proposalBlock := proposed), chain, env, height);
    }
  }

  lemma AlikeTimeout(a: RoundState, b: RoundState, env: Env, t: Timeout)
    requires Alike(a, b)
    ensures Alike(HandleTimeout(a, env, t), HandleTimeout(b, env, t))
  {
    hide Later, EnterNewRound, EnterPropose, EnterPrevote, EnterPrecommit;
    AlikeEnterNewRound(a, b, env, t.height, 0);
    AlikeEnterPropose(a, b, env, t.height, 0);
    AlikeEnterPrevote(a, b, env, t.height, t.round);
    AlikeEnterPrecommit(a, b, env, t.height, t.round);
    AlikeEnterNewRound(EnterPrecommit(a, env, t.height, t.round), EnterPrecommit(b, env, t.height, t.round), env,
                       t.height, t.round + 1);
  }

  /** A precommit for the height below. */
  predicate Late(s: RoundState, input: Input) {
    input.VoteInput? && input.vote.kind.Precommit? && input.vote.height + 1 == s.height
  }

  /** Late precommits may cut the wait for the next height short. */
  predicate CutsWait(s: RoundState, env: Env, input: Input) {
    env.skipTimeoutCommit && Late(s, input) && s.step == STEP_NEW_HEIGHT && s.lastCommit.Some?
  }

  /** Otherwise they show nowhere, unless there is no last commit. */
  lemma LateAlike(s: RoundState, chain: Chain, env: Env, input: Input)
    requires Late(s, input) && !CutsWait(s, env, input)
    ensures var s' := Handle(s, chain, env, input);
      Alike(s', if s.failure.None? && s.step == STEP_NEW_HEIGHT && s.lastCommit.None?
                then Fail(s, VoteForMissingLastCommit) else s)
  {
    hide Later, AddVoteToSet;
  }

  lemma AlikeHandle(a: RoundState, b: RoundState, chain: Chain, env: Env, input: Input)
    requires Alike(a, b) && !input.TxsAvailableInput? && !input.Maj23Input? && !CutsWait(a, env, input)
    ensures Alike(Handle(a, chain, env, input), Handle(b, chain, env, input))
  {
    hide Later, OnPrevote, OnPrecommit, AddVote, HandleBlockPart, HandleTimeout, AddLastCommitVote;
    match input
    case VoteInput(vote, peer) =>
      if Late(a, input) {
        LateAlike(a, chain, env, input);
        LateAlike(b, chain, env, input);
      } else {
        var votes := AddVote(a.votes, a.voters, vote, peer).0;
        AlikeOnPrevote(a.(votes := votes), b.(votes := votes), env, vote.round);
        AlikeOnPrecommit(a.(votes := votes), b.(votes := votes), chain, env, vote.round);
      }
    case ProposalInput(_, _, _) =>
    case BlockPartInput(h, complete, block) => AlikeBlockPart(a, b, chain, env, h, complete, block);
    case TimeoutInput(t) => AlikeTimeout(a, b, env, t);
  }

  // ------------------------------------------------------------------ news and claims

  /** The node waits for transactions in its first round. */
  predicate AwaitsNews(s: RoundState) {
    s.failure.None? && s.round == 0 && s.step == STEP_NEW_ROUND
  }

  /** News of transactions shows if and only if the node awaits it: while it waits for the
      height to begin, all that comes of it is a timeout, which is written when it fires. */
  lemma NewsShows(s: RoundState, chain: Chain, env: Env, need: bool)
    ensures Alike(Handle(s, chain, env, TxsAvailableInput(need)), s) <==> !AwaitsNews(s)
  {
    hide EnterPrevote;
    var t := Timeout(s.height, 0, STEP_NEW_ROUND);
    assert Later(s.timeouts + {t}) == Later(s.timeouts);
    var s1 := SetStep(Schedule(s, s.height, 0, STEP_PROPOSE), 0, STEP_PROPOSE);
    assert EnterPrevote(s1, env, s.height, 0).step != STEP_NEW_ROUND by {
      EnterPrevoteStep(s1, env, s.height, 0);
    }
  }

  lemma EnterPrevoteStep(s: RoundState, env: Env, height: int, round: nat)
    ensures EnterPrevote(s, env, height, round).step in {s.step, STEP_PREVOTE}
  {
  }

  /** The input is lost on a replay: a vote that counts only by a claim, or news that is
      awaited. */
  predicate LostOnReplay(s: RoundState, input: Input) {
    || (input.TxsAvailableInput? && AwaitsNews(s))
    || (input.VoteInput? && input.vote.height == s.height
        && CountsByClaim(SetOf(s.votes, input.vote.kind, input.vote.round), input.vote.voter, input.vote.id))
  }

  predicate IsWritten(input: Input) {
    !input.TxsAvailableInput? && !input.Maj23Input?
  }

  lemma AlikeTwice(a: RoundState, b: RoundState, c: RoundState)
    requires Alike(a, b) && Alike(b, c)
    ensures Alike(a, c)
  {
    hide Later;
  }

  lemma AlikeBack(a: RoundState, b: RoundState)
    requires Alike(a, b)
    ensures Alike(b, a)
  {
    hide Later;
  }

  lemma AlikeBare(a: RoundState, b: RoundState)
    requires Alike(a, b)
    ensures Alike(Bare(a), Bare(b))
  {
    hide Later, BareVotes, BareSigned, BareDecisions;
  }

  lemma IsTidyAt(s: RoundState, w: World, vote: Vote)
    requires NodeOK(s, w)
    ensures Tidy(SetOf(s.votes, vote.kind, vote.round))
  {
    hide VoteSetOK, Tidy;
    assert VoteSetOK(SetOf(s.votes, vote.kind, vote.round), s.voters);
    IsTidy(SetOf(s.votes, vote.kind, vote.round), s.voters);
  }

  /** A written input that is not lost does the same with and without the claims. */
  lemma WrittenStep(s: RoundState, w: World, chain: Chain, env: Env, input: Input)
    requires NodeOK(s, w) && IsWritten(input) && !LostOnReplay(s, input) && !CutsWait(s, env, input)
    ensures Alike(Handle(Bare(s), chain, env, input), Bare(Handle(s, chain, env, input)))
  {
    hide NodeOK, Handle, Bare, Alike, CountsByClaim;
    if Late(s, input) {
      BareLate(s, chain, env, input);
    } else {
      if input.VoteInput? && input.vote.height == s.height {
        IsTidyAt(s, w, input.vote);
        BareHandle(s, chain, env, input);
      } else {
        BareOther(s, chain, env, input);
      }
      AlikeSelf(Bare(Handle(s, chain, env, input)));
    }
  }

  lemma AlikeSelf(s: RoundState)
    ensures Alike(s, s)
  {
  }

  lemma BareFacts(s: RoundState)
    ensures Bare(s).height == s.height && Bare(s).step == s.step && Bare(s).failure == s.failure
    ensures Bare(s).lastCommit.None? == s.lastCommit.None? && Bare(s).timeouts == s.timeouts
    ensures Bare(s).votes == BareVotes(s.votes)
  {
    hide BareVotes, BareSigned, BareDecisions;
  }

  lemma BareLate(s: RoundState, chain: Chain, env: Env, input: Input)
    requires Late(s, input) && !CutsWait(s, env, input)
    ensures Alike(Handle(Bare(s), chain, env, input), Bare(Handle(s, chain, env, input)))
  {
    hide Handle, BareVotes, BareSigned, BareDecisions, Later;
    LateAlike(s, chain, env, input);
    LateAlike(Bare(s), chain, env, input);
    var t := if s.failure.None? && s.step == STEP_NEW_HEIGHT && s.lastCommit.None?
             then Fail(s, VoteForMissingLastCommit) else s;
    AlikeBare(Handle(s, chain, env, input), t);
  }

  /** Inputs that are no votes of this height or the one below. */
  lemma BareOther(s: RoundState, chain: Chain, env: Env, input: Input)
    requires IsWritten(input) && !Late(s, input) && (input.VoteInput? ==> input.vote.height != s.height)
    ensures Handle(Bare(s), chain, env, input) == Bare(Handle(s, chain, env, input))
  {
    hide BareVotes, BareSigned, BareDecisions, BareLast, HandleBlockPart, HandleTimeout;
    match input
    case VoteInput(_, _) =>
    case BlockPartInput(h, complete, block) => BareBlockPart(s, chain, env, h, complete, block);
    case TimeoutInput(t) => BareTimeout(s, env, t);
    case ProposalInput(_, _, _) =>
  }

  /** An unwritten input that is not lost leaves nothing but claims. */
  lemma UnwrittenStep(s: RoundState, chain: Chain, env: Env, input: Input)
    requires !IsWritten(input) && !LostOnReplay(s, input)
    ensures Alike(Bare(s), Bare(Handle(s, chain, env, input)))
  {
    hide Handle, Bare, Alike;
    if input.Maj23Input? {
      BareHandleClaim(s, chain, env, input);
      AlikeSelf(Bare(s));
    } else {
      NewsShows(s, chain, env, input.needProofBlock);
      AlikeBack(Handle(s, chain, env, input), s);
      AlikeBare(s, Handle(s, chain, env, input));
    }
  }

  // ------------------------------------------------------------------- a fresh height

  /** MakeCommit keeps the votes for the block and for nil. */
  predicate InCommit(vs: VoteSet, a: nat) {
    a in vs.votes && (vs.votes[a].NilBlock? || vs.maj23 == Some(vs.votes[a]))
  }

  /** The votes of the commit that is stored with a block, added one by one. */
  function SeenCommit(vs: VoteSet, voters: VoterSet, n: nat): VoteSet
    requires n <= |voters|
  {
    if n == 0 then EmptyVoteSet
    else
      var before, a := SeenCommit(vs, voters, n - 1), voters[n - 1].address;
      if InCommit(vs, a) then AddVoteToSet(before, voters, a, vs.votes[a]).0 else before
  }

  lemma {:induction false} SeenCommitOK(vs: VoteSet, voters: VoterSet, n: nat)
    requires Distinct(voters) && n <= |voters|
    ensures VoteSetOK(SeenCommit(vs, voters, n), voters)
  {
    if n == 0 {
      EmptyVoteSetOK(voters);
    } else {
      hide VoteSetOK, AddVoteToSet;
      SeenCommitOK(vs, voters, n - 1);
      var a := voters[n - 1].address;
      if a in vs.votes {
        AddVoteToSetOK(SeenCommit(vs, voters, n - 1), voters, a, vs.votes[a]);
      }
    }
  }

  /** After `n` voters: exactly their votes in the commit are there, each counted for what
      it says. */
  ghost predicate Rebuilt(c: VoteSet, vs: VoteSet, voters: VoterSet, n: nat)
    requires n <= |voters|
  {
    && (forall a | a in c.votes :: InCommit(vs, a) && c.votes[a] == vs.votes[a])
    && (forall a | a in c.votes :: exists i :: 0 <= i < n && voters[i].address == a)
    && (forall id | id in c.byBlock :: Canonical(c.votes, c.byBlock[id].voters, id))
    && (forall i | 0 <= i < n && InCommit(vs, voters[i].address) :: Counted(c, voters[i].address, vs))
  }

  ghost predicate Counted(c: VoteSet, a: nat, vs: VoteSet)
    requires a in vs.votes
  {
    vs.votes[a] in c.byBlock && a in c.byBlock[vs.votes[a]].voters
  }

  lemma NoneRebuilt(vs: VoteSet, voters: VoterSet)
    ensures Rebuilt(EmptyVoteSet, vs, voters, 0)
  {
  }

  lemma CommitSkips(c: VoteSet, vs: VoteSet, voters: VoterSet, n: nat)
    requires n < |voters| && Rebuilt(c, vs, voters, n) && !InCommit(vs, voters[n].address)
    ensures Rebuilt(c, vs, voters, n + 1)
  {
    hide InCommit, Canonical;
  }

  /** A voter's first vote is listed and counted. */
  lemma FirstVoteTaken(c: VoteSet, voters: VoterSet, a: nat, id: BlockID)
    requires HasAddress(voters, a) && a !in c.votes && Canonical(c.votes, CountedFor(c, id), id)
    ensures var (c', added) := AddVoteToSet(c, voters, a, id);
      && added && c'.votes == c.votes[a := id] && c'.byBlock.Keys == c.byBlock.Keys + {id}
      && CountedFor(c', id) == CountedFor(c, id) + {a}
      && forall other | other in c.byBlock && other != id :: c'.byBlock[other] == c.byBlock[other]
  {
    hide QuorumWeight, WeightAt, HasAddress;
  }

  lemma CommitAdds(c: VoteSet, vs: VoteSet, voters: VoterSet, n: nat)
    requires Distinct(voters) && n < |voters| && Rebuilt(c, vs, voters, n) && InCommit(vs, voters[n].address)
    ensures var (c', added) := AddVoteToSet(c, voters, voters[n].address, vs.votes[voters[n].address]);
      added && Rebuilt(c', vs, voters, n + 1)
  {
    hide AddVoteToSet;
    var a, id := voters[n].address, vs.votes[voters[n].address];
    assert a !in c.votes;
    FirstVoteTaken(c, voters, a, id);
    var c' := AddVoteToSet(c, voters, a, id).0;
    forall i | 0 <= i < n + 1 && InCommit(vs, voters[i].address) ensures Counted(c', voters[i].address, vs) {
      assert i < n ==> Counted(c, voters[i].address, vs);
    }
    forall k | k in c'.byBlock ensures Canonical(c'.votes, c'.byBlock[k].voters, k) {
      assert k in c.byBlock ==> Canonical(c.votes, c.byBlock[k].voters, k);
    }
  }

  /** No vote of the commit is turned down. */
  lemma {:induction false} CommitTaken(vs: VoteSet, voters: VoterSet, n: nat)
    requires Distinct(voters) && n <= |voters|
    ensures Rebuilt(SeenCommit(vs, voters, n), vs, voters, n)
    ensures n < |voters| && InCommit(vs, voters[n].address) ==>
      AddVoteToSet(SeenCommit(vs, voters, n), voters, voters[n].address, vs.votes[voters[n].address]).1
  {
    hide AddVoteToSet, Rebuilt, InCommit;
    if n > 0 {
      CommitTaken(vs, voters, n - 1);
      if InCommit(vs, voters[n - 1].address) {
        CommitAdds(SeenCommit(vs, voters, n - 1), vs, voters, n - 1);
      } else {
        CommitSkips(SeenCommit(vs, voters, n - 1), vs, voters, n - 1);
      }
    } else {
      NoneRebuilt(vs, voters);
    }
    if n < |voters| && InCommit(vs, voters[n].address) {
      CommitAdds(SeenCommit(vs, voters, n), vs, voters, n);
    }
  }

  lemma {:induction false} WeightCovered(voters: VoterSet, s: set<nat>, t: set<nat>)
    requires forall i | 0 <= i < |voters| && voters[i].address in s :: voters[i].address in t
    ensures WeightOf(voters, s) <= WeightOf(voters, t)
  {
    if voters != [] {
      WeightCovered(voters[..|voters| - 1], s, t);
    }
  }

  /** Read back, it lists those who are listed with the block or with nil, as they were, and
      nobody else. */
  lemma CommitLists(vs: VoteSet, voters: VoterSet, i: nat)
    requires Distinct(voters) && vs.maj23.Some? && i < |voters|
    ensures var c, a := SeenCommit(vs, voters, |voters|), voters[i].address;
      && (a in c.votes <==> a in vs.votes && vs.votes[a] in {NilBlock, vs.maj23.value})
      && (a in c.votes ==> c.votes[a] == vs.votes[a])
  {
    hide SeenCommit;
    CommitTaken(vs, voters, |voters|);
    var c, a := SeenCommit(vs, voters, |voters|), voters[i].address;
    if InCommit(vs, a) {
      assert Counted(c, a, vs) && Canonical(c.votes, c.byBlock[vs.votes[a]].voters, vs.votes[a]);
    }
  }

  /** The commit stored with a block has its majority again when it is read back. */
  lemma CommitRestored(vs: VoteSet, voters: VoterSet)
    requires Distinct(voters) && VoteSetOK(vs, voters) && vs.maj23.Some?
    ensures SeenCommit(vs, voters, |voters|).maj23 == vs.maj23
  {
    var c, id := SeenCommit(vs, voters, |voters|), vs.maj23.value;
    SeenCommitOK(vs, voters, |voters|);
    CommitTaken(vs, voters, |voters|);
    var counted := if id in c.byBlock then c.byBlock[id].voters else {};
    forall i | 0 <= i < |voters| && voters[i].address in vs.byBlock[id].voters ensures voters[i].address in counted {
      assert InCommit(vs, voters[i].address) && Counted(c, voters[i].address, vs);
    }
    WeightCovered(voters, vs.byBlock[id].voters, counted);
    NoWeight(voters);
    assert TwoThirds(voters, counted) && id in c.byBlock;
    var other := c.maj23.value;
    if other != id {
      assert Canonical(c.votes, c.byBlock[other].voters, other) && Canonical(c.votes, counted, id);
      WeightOverlap(voters, counted, c.byBlock[other].voters, {});
    }
  }

  /** reconstructLastCommit */
  function StoredCommit(ds: seq<Decision>, chain: Chain): Option<LastCommit> {
    if ds == [] then None
    else
      var d, voters := ds[|ds| - 1], chain.votersAfter(Hashes(ds[..|ds| - 1]));
      Some(LastCommit(d.round, SeenCommit(Precommits(d.votes, d.round), voters, |voters|), voters))
  }

  /** A node of this history at the beginning of the height after its blocks. */
  function Beginning(s: RoundState, chain: Chain): RoundState {
    var h := chain.initialHeight + |s.decisions|;
    RoundState(s.self, h, 0, STEP_NEW_HEIGHT, chain.votersAfter(Hashes(s.decisions)), None, None, None,
               -1, None, 0, -1, None, NewHeightVoteSet, -1, StoredCommit(s.decisions, chain), false,
               s.timeouts + {Timeout(h, 0, STEP_NEW_HEIGHT)}, s.signed, s.decisions, None)
  }

  /** What a new start begins with. */
  function Fresh(s: RoundState, chain: Chain): RoundState {
    Bare(Beginning(s, chain))
  }

  /** Nothing has happened at the height yet. */
  ghost predicate AtRest(s: RoundState, chain: Chain) {
    s == Beginning(s, chain).(lastCommit := s.lastCommit) && (s.lastCommit.None? <==> s.decisions == [])
  }

  lemma FreshAlike(s: RoundState, chain: Chain)
    requires AtRest(s, chain)
    ensures Alike(Fresh(s, chain), Bare(s))
  {
    hide Later, BareVotes, BareSigned, BareDecisions, SeenCommit, Hashes;
  }

  lemma FreshRests(s: RoundState, chain: Chain)
    ensures AtRest(Fresh(s, chain), chain)
  {
    hide BareVotes, BareSigned, SeenCommit, Hashes;
    BareNew();
    BareHashes(s.decisions);
  }

  lemma StoredCommitOK(ds: seq<Decision>, chain: Chain)
    requires ChainOK(chain)
    ensures StoredCommit(ds, chain).Some? ==> LastCommitOK(StoredCommit(ds, chain).value)
  {
    if ds != [] {
      var d, voters := ds[|ds| - 1], chain.votersAfter(Hashes(ds[..|ds| - 1]));
      SeenCommitOK(Precommits(d.votes, d.round), voters, |voters|);
    }
  }

  /** reconstructLastCommit finds the majority of the last block, and does not panic. */
  predicate CommitFound(ds: seq<Decision>, chain: Chain) {
    ds != [] ==> StoredCommit(ds, chain).value.votes.maj23 == Some(ds[|ds| - 1].id)
  }

  lemma LastCommitFound(ds: seq<Decision>, chain: Chain)
    requires ChainOK(chain) && (ds != [] ==> DecisionOK(ds, chain, |ds| - 1))
    ensures CommitFound(ds, chain)
  {
    if ds != [] {
      var d, voters := ds[|ds| - 1], chain.votersAfter(Hashes(ds[..|ds| - 1]));
      hide VoteSetOK, SeenCommit;
      assert VoteSetOK(SetOf(d.votes, Precommit, d.round), voters);
      CommitRestored(Precommits(d.votes, d.round), voters);
    }
  }

  lemma OwnCommitFound(s: RoundState, w: World)
    requires ChainOK(w.chain) && NodeOK(s, w)
    ensures CommitFound(s.decisions, w.chain)
  {
    hide RequestOK, Justified, CommitFound;
    assert s.decisions != [] ==> DecisionOK(s.decisions, w.chain, |s.decisions| - 1);
    LastCommitFound(s.decisions, w.chain);
  }

  lemma BeginningOK(s: RoundState, w: World)
    requires ChainOK(w.chain) && NodeOK(s, w) && AtRest(s, w.chain)
    ensures NodeOK(Beginning(s, w.chain), w)
  {
    hide NodeOK, SeenCommit, LastCommitOK;
    StoredCommitOK(s.decisions, w.chain);
    if s.decisions != [] {
      LastCommitFieldOK(s, w, StoredCommit(s.decisions, w.chain));
    }
  }

  // ------------------------------------------------- the invariant without the claims

  lemma BareSetOK(vs: VoteSet, voters: VoterSet)
    requires VoteSetOK(vs, voters)
    ensures VoteSetOK(BareSet(vs), voters)
  {
    NoWeight(voters);
    WeightMonotone(voters, {}, {});
    forall id | id in BareSet(vs).byBlock ensures BlockVotesOK(BareSet(vs).byBlock[id], vs.votes.Keys, voters) {
      assert BlockVotesOK(vs.byBlock[id], vs.votes.Keys, voters);
    }
  }

  lemma BareVotesOK(hvs: HeightVoteSet, voters: VoterSet)
    requires HeightVoteSetOK(hvs, voters)
    ensures HeightVoteSetOK(BareVotes(hvs), voters)
  {
    hide BareVotes, BareSet, VoteSetOK;
    forall kind, r: int ensures VoteSetOK(SetOf(BareVotes(hvs), kind, r), voters) {
      VotesFacts(hvs, r);
      BareSetOK(SetOf(hvs, kind, r), voters);
    }
  }

  lemma BareFrom(hvs: HeightVoteSet, height: int, cast: set<Vote>)
    requires HeightVoteSetFrom(hvs, height, cast)
    ensures HeightVoteSetFrom(BareVotes(hvs), height, cast)
  {
    forall kind, r: nat ensures VoteSetFrom(SetOf(BareVotes(hvs), kind, r), kind, height, r, cast) {
      VotesFacts(hvs, r);
      assert VoteSetFrom(SetOf(hvs, kind, r), kind, height, r, cast);
    }
  }

  lemma BarePolkaNot(hvs: HeightVoteSet, r: int, b: int)
    ensures PolkaNot(BareVotes(hvs), r, b) == PolkaNot(hvs, r, b)
  {
    hide BareVotes, BareSet;
    VotesFacts(hvs, r);
    SetFacts(Prevotes(hvs, r));
  }

  lemma BarePolkaBetween(hvs: HeightVoteSet, b: int, low: int, high: int)
    requires PolkaNotBetween(hvs, b, low, high)
    ensures PolkaNotBetween(BareVotes(hvs), b, low, high)
  {
    hide BareVotes, PolkaNot;
    var r :| low < r <= high && PolkaNot(hvs, r, b);
    BarePolkaNot(hvs, r, b);
  }

  lemma BareVotersAt(ds: seq<Decision>, chain: Chain, h: int)
    requires 0 <= h - chain.initialHeight <= |ds|
    ensures VotersAt(BareDecisions(ds), chain, h) == VotersAt(ds, chain, h)
  {
    hide BareVotes;
    var n := h - chain.initialHeight;
    assert BareDecisions(ds)[..n] == BareDecisions(ds[..n]);
    BareHashes(ds[..n]);
  }

  lemma BareJustified(signed: seq<SignRequest>, k: nat)
    requires k < |signed| && Justified(signed, k)
    ensures Justified(BareSigned(signed), k)
  {
    hide BareVotes, BareSet;
    var e, b := signed[k], BareSigned(signed);
    VotesFacts(e.votes, e.vote.round);
    SetFacts(Prevotes(e.votes, e.vote.round));
    forall j | 0 <= j < k && e.vote.kind.Prevote? && b[j].vote.kind.Precommit? && b[j].vote.id.BlockID?
               && b[j].vote.height == e.vote.height && !HashesTo(Some(b[j].vote.id.hash), e.vote.id)
      ensures PolkaNotBetween(b[k].votes, b[j].vote.id.hash, b[j].vote.round, e.vote.round)
    {
      assert signed[j].vote == b[j].vote;
      BarePolkaBetween(e.votes, b[j].vote.id.hash, b[j].vote.round, e.vote.round);
    }
  }

  lemma BareHistoryOK(signed: seq<SignRequest>, ds: seq<Decision>, chain: Chain)
    requires HistoryOK(signed, ds, chain)
    ensures HistoryOK(BareSigned(signed), BareDecisions(ds), chain)
  {
    hide BareVotes, BareSet, HeightVoteSetOK, Justified, Hashes, VotersAt;
    forall k | 0 <= k < |signed|
      ensures RequestOK(BareSigned(signed)[k], BareDecisions(ds), chain) && Justified(BareSigned(signed), k)
    {
      assert RequestOK(signed[k], ds, chain) && Justified(signed, k);
      BareJustified(signed, k);
      BareVotersAt(ds, chain, signed[k].vote.height);
      BareVotesOK(signed[k].votes, VotersAt(ds, chain, signed[k].vote.height));
    }
    forall k | 0 <= k < |ds| ensures DecisionOK(BareDecisions(ds), chain, k) {
      assert DecisionOK(ds, chain, k);
      var d := ds[k];
      BareVotersAt(ds, chain, chain.initialHeight + k);
      BareVotesOK(d.votes, VotersAt(ds, chain, chain.initialHeight + k));
      VotesFacts(d.votes, d.round);
      SetFacts(Precommits(d.votes, d.round));
    }
  }

  lemma BareFromCast(s: RoundState, w: World)
    requires FromCast(s, w)
    ensures FromCast(Bare(s), w)
  {
    hide BareVotes, HeightVoteSetFrom;
    BareFrom(s.votes, s.height, w.cast);
    forall k | w.signedFrom <= k < |s.signed|
      ensures HeightVoteSetFrom(BareSigned(s.signed)[k].votes, s.signed[k].vote.height, w.cast)
    {
      BareFrom(s.signed[k].votes, s.signed[k].vote.height, w.cast);
    }
    forall k | w.decidedFrom <= k < |s.decisions|
      ensures HeightVoteSetFrom(BareDecisions(s.decisions)[k].votes, w.chain.initialHeight + k, w.cast)
    {
      BareFrom(s.decisions[k].votes, w.chain.initialHeight + k, w.cast);
    }
  }

  lemma BareSignedOK(s: RoundState)
    requires SignedOK(s)
    ensures SignedOK(Bare(s))
  {
    hide BareVotes, PolkaNotBetween, BareDecisions, BareLast;
    var b := Bare(s);
    forall k | 0 <= k < |s.signed| && s.signed[k].vote.height == s.height && s.signed[k].vote.kind.Precommit?
               && s.signed[k].vote.id.BlockID?
      ensures Guarded(b, s.signed[k].vote.round, s.signed[k].vote.id.hash)
    {
      var v := s.signed[k].vote;
      assert Guarded(s, v.round, v.id.hash);
      if PolkaNotBetween(s.votes, v.id.hash, v.round, s.round) {
        BarePolkaBetween(s.votes, v.id.hash, v.round, s.round);
      }
    }
  }

  lemma BareBlocksOK(s: RoundState)
    requires BlocksOK(s)
    ensures BlocksOK(Bare(s))
  {
    hide BareVotes, BareSet, BareSigned, BareDecisions, BareLast;
    RoundFacts(s, s.lockedRound);
    RoundFacts(s, s.validRound);
    RoundFacts(s, s.commitRound);
  }

  lemma BarePositionOK(s: RoundState, chain: Chain)
    requires PositionOK(s, chain)
    ensures PositionOK(Bare(s), chain)
  {
    hide BareVotes, BareSet, HeightVoteSetOK, VoteSetOK, BareSigned, Hashes;
    VotesFacts(s.votes, 0);
    BareHashes(s.decisions);
    BareVotesOK(s.votes, s.voters);
    if s.lastCommit.Some? {
      BareSetOK(s.lastCommit.value.votes, s.lastCommit.value.voters);
    }
  }

  lemma BareNodeOK(s: RoundState, w: World)
    requires NodeOK(s, w)
    ensures NodeOK(Bare(s), w)
  {
    hide PositionOK, BlocksOK, SignedOK, HistoryOK, FromCast, BareVotes, BareSigned, BareDecisions, BareLast;
    BarePositionOK(s, w.chain);
    BareBlocksOK(s);
    BareSignedOK(s);
    BareHistoryOK(s.signed, s.decisions, w.chain);
    BareFromCast(s, w);
  }

  lemma FreshOK(s: RoundState, w: World)
    requires ChainOK(w.chain) && NodeOK(s, w) && AtRest(s, w.chain)
    ensures NodeOK(Fresh(s, w.chain), w) && Fresh(s, w.chain).self == s.self
    ensures CommitFound(s.decisions, w.chain)
  {
    hide NodeOK, Beginning, ChainOK;
    BeginningOK(s, w);
    BareNodeOK(Beginning(s, w.chain), w);
    OwnCommitFound(s, w);
    assert Beginning(s, w.chain).self == s.self by {
      BeginningSelf(s, w.chain);
    }
  }

  lemma BeginningSelf(s: RoundState, chain: Chain)
    ensures Beginning(s, chain).self == s.self
  {
  }

  // ------------------------------------------------------------- a block ahead of it

  /** The block of the node's height has +2/3 precommits of one round. */
  ghost predicate Committed(s: RoundState, d: Decision, cast: set<Vote>) {
    && d.id.BlockID? && d.round >= 0 && Precommits(d.votes, d.round).maj23 == Some(d.id)
    && HeightVoteSetOK(d.votes, s.voters) && HeightVoteSetFrom(d.votes, s.height, cast)
  }

  function WithBlock(s: RoundState, d: Decision): RoundState {
    s.(decisions := s.decisions + [d])
  }

  /** A start that finds the block of its height in the store begins at the next one. */
  lemma AheadOK(s: RoundState, w: World, d: Decision)
    requires ChainOK(w.chain) && NodeOK(s, w) && Committed(s, d, w.cast)
    ensures NodeOK(Fresh(WithBlock(s, d), w.chain), w) && Fresh(WithBlock(s, d), w.chain).self == s.self
    ensures CommitFound(s.decisions + [d], w.chain)
  {
    var b := Beginning(WithBlock(s, d), w.chain);
    StoredCommitOK(b.decisions, w.chain);
    DecideHistory(s, w, d);
    hide Bare, HeightVoteSetOK, VoteSetOK, StoredCommit, CommitFound;
    assert DecisionOK(s.decisions + [d], w.chain, |s.decisions|);
    LastCommitFound(s.decisions + [d], w.chain);
    NewHeightVoteSetOK(b.voters, b.height, w.cast);
    assert NodeOK(b, w) by {
      assert PositionOK(b, w.chain);
      assert SignedOK(b);
    }
    BareNodeOK(b, w);
    BareSelf(b);
  }

  lemma BareSelf(s: RoundState)
    ensures Bare(s).self == s.self
  {
  }

  // ------------------------------------------------------------- finalizing a block

  /** Steps that finalize nothing. */
  lemma StepsKeepDecisions(s: RoundState, env: Env, height: int, round: nat)
    ensures EnterPrevote(s, env, height, round).decisions == s.decisions
    ensures EnterPropose(s, env, height, round).decisions == s.decisions
    ensures EnterNewRound(s, env, height, round).decisions == s.decisions
    ensures EnterPrecommit(s, env, height, round).decisions == s.decisions
    ensures EnterPrevoteWait(s, height, round).decisions == s.decisions
    ensures EnterPrecommitWait(s, height, round).decisions == s.decisions
  {
    hide PrevoteChoice, SetRound, POLRound, HasTwoThirdsAny, EnterPropose, EnterPrecommit;
    ProposeKeepsDecisions(s, env, height, round);
    ProposeKeepsDecisions(StartRound(s, round), env, height, round);
    PrecommitKeepsDecisions(s, env, height, round);
  }

  lemma ProposeKeepsDecisions(s: RoundState, env: Env, height: int, round: nat)
    ensures EnterPropose(s, env, height, round).decisions == s.decisions
  {
    hide PrevoteChoice;
  }

  lemma PrecommitKeepsDecisions(s: RoundState, env: Env, height: int, round: nat)
    ensures EnterPrecommit(s, env, height, round).decisions == s.decisions
  {
    hide POLRound;
  }

  lemma FinalizeRests(s: RoundState, chain: Chain, env: Env, height: int)
    ensures var s' := FinalizeCommit(s, chain, env, height);
      s'.decisions == s.decisions || (AtRest(s', chain) && s.failure.None?)
  {
    hide Hashes, SeenCommit;
  }

  lemma EnterCommitRests(s: RoundState, chain: Chain, env: Env, height: int, commitRound: int)
    ensures var s' := EnterCommit(s, chain, env, height, commitRound);
      s'.decisions == s.decisions || AtRest(s', chain)
  {
    hide FinalizeCommit, AtRest;
    var maj := Precommits(s.votes, commitRound).maj23;
    if maj.Some? {
      FinalizeRests(CommitStep(s, commitRound, maj.value), chain, env, height);
    }
  }

  lemma CompleteProposalRests(s: RoundState, chain: Chain, env: Env, height: int)
    ensures var s' := HandleCompleteProposal(s, chain, env, height);
      s'.decisions == s.decisions || AtRest(s', chain)
  {
    hide FinalizeCommit, AtRest, EnterPrevote, EnterPrecommit;
    var maj := Prevotes(s.votes, s.round).maj23;
    var s1 := if maj.Some? && maj.value.BlockID? && s.validRound < s.round && HashesTo(s.proposalBlock, maj.value)
              then s.(validRound := s.round, validBlock := s.proposalBlock) else s;
    FinalizeRests(s1, chain, env, height);
    StepsKeepDecisions(s1, env, height, s1.round);
    var s2 := EnterPrevote(s1, env, height, s1.round);
    StepsKeepDecisions(s2, env, height, s2.round);
  }

  lemma PrevoteKeepsDecisions(s: RoundState, env: Env, round: nat)
    ensures OnPrevote(s, env, round).decisions == s.decisions
  {
    hide EnterNewRound, EnterPrevote, EnterPrecommit, EnterPrevoteWait, HasTwoThirdsAny;
    var maj := Prevotes(s.votes, round).maj23;
    var s1 := if maj.Some? then OnPolka(s, round, maj.value) else s;
    StepsKeepDecisions(s1, env, s1.height, round);
    StepsKeepDecisions(s1, env, s1.height, s1.round);
  }

  lemma LeavesRest(s: RoundState, chain: Chain, env: Env)
    requires AtRest(s, chain)
    ensures EnterNewRound(s, env, s.height, 0).step != STEP_NEW_HEIGHT
  {
    hide Hashes, StoredCommit, EnterPrevote, SetRound;
    var s1 := SetStep(Schedule(StartRound(s, 0), s.height, 0, STEP_PROPOSE), 0, STEP_PROPOSE);
    EnterPrevoteStep(s1, env, s.height, 0);
  }

  lemma PrecommitRests(s: RoundState, chain: Chain, env: Env, round: nat)
    ensures var s' := OnPrecommit(s, chain, env, round);
      s'.decisions == s.decisions
      || (if env.skipTimeoutCommit && HasAll(Precommits(s.votes, round), s.voters)
          then s'.step != STEP_NEW_HEIGHT else AtRest(s', chain))
  {
    hide EnterNewRound, EnterPrecommit, EnterCommit, EnterPrecommitWait, HasTwoThirdsAny, HasAll, AtRest;
    var s1 := EnterNewRound(s, env, s.height, round);
    var s2 := EnterPrecommit(s1, env, s.height, round);
    var s3 := EnterCommit(s2, chain, env, s.height, round);
    StepsKeepDecisions(s, env, s.height, round);
    StepsKeepDecisions(s1, env, s.height, round);
    StepsKeepDecisions(s2, env, s.height, round);
    EnterCommitRests(s2, chain, env, s.height, round);
    StepsKeepDecisions(s3, env, s3.height, 0);
    if AtRest(s3, chain) {
      LeavesRest(s3, chain, env);
    }
  }

  /** The last precommit of all is here, and the wait for the next height is skipped. */
  predicate SkipsWait(s: RoundState, env: Env, input: Input) {
    && env.skipTimeoutCommit && input.VoteInput?
    && HasAll(Precommits(AddVote(s.votes, s.voters, input.vote, input.peer).0, input.vote.round), s.voters)
  }

  /** A node that finalizes a block rests before the next height unless it skips the wait. */
  lemma FinalizingRests(s: RoundState, chain: Chain, env: Env, input: Input)
    requires Handle(s, chain, env, input).decisions != s.decisions
    ensures var s' := Handle(s, chain, env, input);
      if SkipsWait(s, env, input) then s'.step != STEP_NEW_HEIGHT else AtRest(s', chain)
  {
    hide AtRest, OnPrevote, OnPrecommit, AddVote, HandleCompleteProposal, EnterNewRound, EnterPropose, EnterPrevote,
      EnterPrecommit, HasAll, AddVoteToSet;
    match input
    case VoteInput(vote, peer) =>
      var s1 := s.(votes := AddVote(s.votes, s.voters, vote, peer).0);
      PrevoteKeepsDecisions(s1, env, vote.round);
      PrecommitRests(s1, chain, env, vote.round);
      if s.lastCommit.Some? {
        var lc := s.lastCommit.value;
        var vs := AddVoteToSet(lc.votes, lc.voters, vote.voter, vote.id).0;
        StepsKeepDecisions(s.(lastCommit := Some(lc.(votes := vs))), env, s.height, 0);
      }
    case ProposalInput(_, _, _) =>
    case BlockPartInput(h, complete, block) =>
      if s.proposalParts.Some? {
        var s1 := s.(proposalParts := Some(s.proposalParts.value.(complete := true)));
        CompleteProposalRests(if block.Some? then s1.(proposalBlock := block) else s1, chain, env, h);
      }
    case TimeoutInput(t) =>
      StepsKeepDecisions(s, env, t.height, 0);
      StepsKeepDecisions(s, env, t.height, t.round);
      StepsKeepDecisions(EnterPrecommit(s, env, t.height, t.round), env, t.height, t.round + 1);
    case TxsAvailableInput(_) => StepsKeepDecisions(s, env, s.height, 0);
    case Maj23Input(_, _, _, _) =>
  }

  /** A start right after a block is finalized gives back the state if and only if the wait
      was not skipped. */
  lemma BlockGivesBack(s: RoundState, chain: Chain, env: Env, input: Input)
    requires Handle(s, chain, env, input).decisions != s.decisions
    ensures var s' := Handle(s, chain, env, input);
      Alike(Fresh(s', chain), Bare(s')) <==> !SkipsWait(s, env, input)
  {
    hide Handle, SkipsWait, AtRest, BareVotes, BareSigned, BareDecisions, SeenCommit, Hashes, Later;
    var s' := Handle(s, chain, env, input);
    FinalizingRests(s, chain, env, input);
    if AtRest(s', chain) {
      FreshAlike(s', chain);
    }
  }
}
