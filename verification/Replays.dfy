/** Replaying a node's written inputs. Claims of peers are handled and not written, so a
    replay has the vote sets without what the claims left in them. Everything else comes
    out the same, as long as no vote counted only because of a claim. */
module Replays {
  import opened Collections
  import opened Quorum
  import opened VoteSets
  import opened RoundStates

  // ------------------------------------------------------------------ without claims

  function BareBlocks(m: map<BlockID, BlockVotes>): map<BlockID, BlockVotes> {
    map id | id in m && m[id].voters != {} :: m[id].(peerMaj23 := false)
  }

  function BareSet(vs: VoteSet): VoteSet {
    vs.(byBlock := BareBlocks(vs.byBlock), peerMaj23s := map[])
  }

  function BareVotes(hvs: HeightVoteSet): HeightVoteSet {
    hvs.(sets := map r | r in hvs.sets :: RoundVoteSet(BareSet(hvs.sets[r].prevotes), BareSet(hvs.sets[r].precommits)))
  }

  function BareSigned(signed: seq<SignRequest>): (r: seq<SignRequest>)
    ensures |r| == |signed|
  {
    seq(|signed|, k requires 0 <= k < |signed| => signed[k].(votes := BareVotes(signed[k].votes)))
  }

  function BareDecisions(ds: seq<Decision>): (r: seq<Decision>)
    ensures |r| == |ds|
  {
    seq(|ds|, k requires 0 <= k < |ds| => ds[k].(votes := BareVotes(ds[k].votes)))
  }

  function BareLast(lc: Option<LastCommit>): Option<LastCommit> {
    if lc.None? then None else Some(lc.value.(votes := BareSet(lc.value.votes)))
  }

  /** The state with everything that claims left in vote sets taken out. */
  function Bare(s: RoundState): RoundState {
    s.(votes := BareVotes(s.votes), signed := BareSigned(s.signed), decisions := BareDecisions(s.decisions),
       lastCommit := BareLast(s.lastCommit))
  }

  // ----------------------------------------------------------------------- vote sets

  lemma VotesFacts(hvs: HeightVoteSet, r: int)
    ensures Prevotes(BareVotes(hvs), r) == BareSet(Prevotes(hvs, r))
    ensures Precommits(BareVotes(hvs), r) == BareSet(Precommits(hvs, r))
    ensures BareVotes(hvs).round == hvs.round
  {
    assert BareSet(EmptyVoteSet) == EmptyVoteSet;
  }

  lemma SetFacts(vs: VoteSet)
    ensures BareSet(vs).maj23 == vs.maj23 && BareSet(vs).sum == vs.sum
  {
  }

  lemma {:induction false} BarePOLRound(hvs: HeightVoteSet, from: int)
    ensures POLRound(BareVotes(hvs), from) == POLRound(hvs, from)
    decreases from + 1
  {
    hide BareVotes, BareSet;
    VotesFacts(hvs, from);
    SetFacts(Prevotes(hvs, from));
    if from >= 0 {
      BarePOLRound(hvs, from - 1);
    }
  }

  lemma BareSetRound(hvs: HeightVoteSet, round: int)
    ensures BareVotes(SetRound(hvs, round)) == SetRound(BareVotes(hvs), round)
  {
    assert BareSet(EmptyVoteSet) == EmptyVoteSet;
    var a, b := BareVotes(SetRound(hvs, round)).sets, SetRound(BareVotes(hvs), round).sets;
    assert a.Keys == b.Keys;
    assert forall r | r in a :: a[r] == b[r];
  }

  lemma BareNew()
    ensures BareVotes(NewHeightVoteSet) == NewHeightVoteSet
  {
    assert BareSet(EmptyVoteSet) == EmptyVoteSet;
  }

  lemma BareClaim(hvs: HeightVoteSet, kind: VoteType, round: int, peer: nat, id: BlockID)
    ensures BareVotes(ClaimMaj23(hvs, kind, round, peer, id)) == BareVotes(hvs)
  {
    if round in hvs.sets {
      BareSetClaim(SetOf(hvs, kind, round), peer, id);
      hide SetPeerMaj23, BareSet;
      assert BareVotes(ClaimMaj23(hvs, kind, round, peer, id)).sets == BareVotes(hvs).sets;
    }
  }

  lemma BareSetClaim(vs: VoteSet, peer: nat, id: BlockID)
    ensures BareSet(SetPeerMaj23(vs, peer, id)) == BareSet(vs)
  {
    assert BareSet(SetPeerMaj23(vs, peer, id)).byBlock == BareSet(vs).byBlock;
  }

  /** The voter has another vote in the set, and this one counts because of a claim. */
  predicate CountsByClaim(vs: VoteSet, voter: nat, id: BlockID) {
    && voter in vs.votes && !KnowsVote(vs, voter, id)
    && id in vs.byBlock && vs.byBlock[id].peerMaj23
  }

  /** A block nobody voted for has no weight. */
  ghost predicate Tidy(vs: VoteSet) {
    forall id | id in vs.byBlock && vs.byBlock[id].voters == {} :: vs.byBlock[id].sum == 0
  }

  lemma IsTidy(vs: VoteSet, voters: VoterSet)
    requires VoteSetOK(vs, voters)
    ensures Tidy(vs)
  {
    NoWeight(voters);
    assert forall id | id in vs.byBlock :: BlockVotesOK(vs.byBlock[id], vs.votes.Keys, voters);
  }

  function Entry(m: map<BlockID, BlockVotes>, id: BlockID): BlockVotes {
    if id in m then m[id] else BlockVotes(false, {}, 0)
  }

  lemma BareEntry(m: map<BlockID, BlockVotes>, id: BlockID)
    requires id in m && m[id].voters == {} ==> m[id].sum == 0
    ensures Entry(BareBlocks(m), id) == Entry(m, id).(peerMaj23 := false)
  {
  }

  lemma BareUpdate(m: map<BlockID, BlockVotes>, id: BlockID, bv: BlockVotes)
    requires bv.voters != {}
    ensures BareBlocks(m[id := bv]) == BareBlocks(m)[id := bv.(peerMaj23 := false)]
  {
  }

  /** Counting a vote that does not conflict with another one. */
  lemma BareCount(vs: VoteSet, voters: VoterSet, voter: nat, id: BlockID)
    requires Tidy(vs) && voter !in vs.votes
    ensures var (a, x) := AddVerifiedVote(vs, voters, voter, id);
      var (b, y) := AddVerifiedVote(BareSet(vs), voters, voter, id);
      x && y && BareSet(a) == b
  {
    hide WeightAt, QuorumWeight, BareBlocks;
    var weight := WeightAt(voters, voter);
    BareEntry(vs.byBlock, id);
    var after := CountVote(Entry(vs.byBlock, id), voter, weight);
    assert voter in after.voters;
    BareUpdate(vs.byBlock, id, after);
    var (a, x) := AddVerifiedVote(vs, voters, voter, id);
    var (b, y) := AddVerifiedVote(BareSet(vs), voters, voter, id);
    assert a.byBlock == vs.byBlock[id := after];
    assert b.byBlock == BareBlocks(vs.byBlock)[id := after.(peerMaj23 := false)];
    assert a.votes == b.votes;
  }

  lemma BareAddVerified(vs: VoteSet, voters: VoterSet, voter: nat, id: BlockID)
    requires Tidy(vs) && !CountsByClaim(vs, voter, id) && !KnowsVote(vs, voter, id)
    ensures var (a, x) := AddVerifiedVote(vs, voters, voter, id);
      var (b, y) := AddVerifiedVote(BareSet(vs), voters, voter, id);
      x == y && BareSet(a) == b
  {
    if voter in vs.votes {
      hide WeightAt, QuorumWeight;
      assert AddVerifiedVote(vs, voters, voter, id).0.byBlock == vs.byBlock;
    } else {
      hide AddVerifiedVote;
      BareCount(vs, voters, voter, id);
    }
  }

  lemma BareAddToSet(vs: VoteSet, voters: VoterSet, voter: nat, id: BlockID)
    requires Tidy(vs) && !CountsByClaim(vs, voter, id)
    ensures var (a, x) := AddVoteToSet(vs, voters, voter, id);
      var (b, y) := AddVoteToSet(BareSet(vs), voters, voter, id);
      x == y && BareSet(a) == b
  {
    hide AddVerifiedVote, Tidy, HasAddress;
    if HasAddress(voters, voter) && !KnowsVote(vs, voter, id) {
      BareAddVerified(vs, voters, voter, id);
    }
  }

  lemma BareTrack(hvs: HeightVoteSet, round: nat, peer: nat)
    ensures BareVotes(TrackRound(hvs, round, peer)) == TrackRound(BareVotes(hvs), round, peer)
    ensures forall kind, r :: SetOf(TrackRound(hvs, round, peer), kind, r) == SetOf(hvs, kind, r)
  {
    assert BareSet(EmptyVoteSet) == EmptyVoteSet;
    hide BareSet;
    assert BareVotes(TrackRound(hvs, round, peer)).sets == TrackRound(BareVotes(hvs), round, peer).sets;
  }

  lemma BareReplace(hvs: HeightVoteSet, kind: VoteType, round: int, vs: VoteSet)
    requires round in hvs.sets
    ensures round in BareVotes(hvs).sets
    ensures BareVotes(ReplaceSet(hvs, kind, round, vs)) == ReplaceSet(BareVotes(hvs), kind, round, BareSet(vs))
  {
    hide BareSet;
    assert BareVotes(ReplaceSet(hvs, kind, round, vs)).sets ==
      ReplaceSet(BareVotes(hvs), kind, round, BareSet(vs)).sets;
  }

  lemma BareAddVote(hvs: HeightVoteSet, voters: VoterSet, vote: Vote, peer: nat)
    requires Tidy(SetOf(hvs, vote.kind, vote.round))
    requires !CountsByClaim(SetOf(hvs, vote.kind, vote.round), vote.voter, vote.id)
    ensures var (a, x) := AddVote(hvs, voters, vote, peer);
      var (b, y) := AddVote(BareVotes(hvs), voters, vote, peer);
      x == y && BareVotes(a) == b
  {
    hide BareSet, AddVoteToSet, Tidy, CountsByClaim;
    var tracked := TrackRound(hvs, vote.round, peer);
    BareTrack(hvs, vote.round, peer);
    VotesFacts(tracked, vote.round);
    BareAddToSet(SetOf(hvs, vote.kind, vote.round), voters, vote.voter, vote.id);
    if vote.round in tracked.sets {
      hide BareVotes, TrackRound;
      var vs := AddVoteToSet(SetOf(hvs, vote.kind, vote.round), voters, vote.voter, vote.id).0;
      BareReplace(tracked, vote.kind, vote.round, vs);
    }
  }

  /** A vote is taken with the claims and not without them, or the other way round, if and
      only if it is a voter's vote that counts by a claim. */
  lemma ClaimMatters(hvs: HeightVoteSet, voters: VoterSet, vote: Vote, peer: nat)
    requires Tidy(SetOf(hvs, vote.kind, vote.round))
    ensures AddVote(hvs, voters, vote, peer).1 != AddVote(BareVotes(hvs), voters, vote, peer).1 <==>
      HasAddress(voters, vote.voter) && CountsByClaim(SetOf(hvs, vote.kind, vote.round), vote.voter, vote.id)
  {
    hide Tidy, BareBlocks, WeightAt, QuorumWeight, HasAddress;
    var vs := SetOf(hvs, vote.kind, vote.round);
    if !CountsByClaim(vs, vote.voter, vote.id) {
      BareAddVote(hvs, voters, vote, peer);
    } else {
      VotesFacts(hvs, vote.round);
      BareUnknown(vs, vote.voter, vote.id);
    }
  }

  lemma BareUnknown(vs: VoteSet, voter: nat, id: BlockID)
    ensures KnowsVote(BareSet(vs), voter, id) == KnowsVote(vs, voter, id)
    ensures id in BareSet(vs).byBlock ==> !BareSet(vs).byBlock[id].peerMaj23
  {
  }

  // --------------------------------------------------------------------- transitions

  lemma BareSign(s: RoundState, kind: VoteType, id: BlockID)
    ensures Bare(Sign(s, kind, id)) == Sign(Bare(s), kind, id)
  {
    hide BareVotes;
  }

  lemma BareHashes(ds: seq<Decision>)
    ensures Hashes(BareDecisions(ds)) == Hashes(ds)
  {
    hide BareVotes;
  }

  lemma BareComplete(s: RoundState)
    ensures IsProposalComplete(Bare(s)) == IsProposalComplete(s)
  {
    hide BareVotes, BareSet;
    if s.proposal.Some? {
      VotesFacts(s.votes, s.proposal.value.polRound);
      SetFacts(Prevotes(s.votes, s.proposal.value.polRound));
    }
  }

  /** What the transitions look at in the votes of one round. */
  lemma RoundFacts(s: RoundState, r: int)
    ensures var p, q := Prevotes(Bare(s).votes, r), Prevotes(s.votes, r);
      p.maj23 == q.maj23 && p.sum == q.sum
    ensures var p, q := Precommits(Bare(s).votes, r), Precommits(s.votes, r);
      p.maj23 == q.maj23 && p.sum == q.sum && p == BareSet(q)
    ensures Bare(s).votes.round == s.votes.round
    ensures POLRound(Bare(s).votes, s.votes.round) == POLRound(s.votes, s.votes.round)
  {
    hide BareVotes, BareSet;
    VotesFacts(s.votes, r);
    SetFacts(Prevotes(s.votes, r));
    SetFacts(Precommits(s.votes, r));
    BarePOLRound(s.votes, s.votes.round);
  }

  lemma BareEnterPrevote(s: RoundState, env: Env, height: int, round: nat)
    ensures Bare(EnterPrevote(s, env, height, round)) == EnterPrevote(Bare(s), env, height, round)
  {
    hide BareVotes, BareSigned, BareDecisions, BareLast;
    BareSign(s, Prevote, PrevoteChoice(s, env, round));
  }

  lemma BareEnterPropose(s: RoundState, env: Env, height: int, round: nat)
    ensures Bare(EnterPropose(s, env, height, round)) == EnterPropose(Bare(s), env, height, round)
  {
    hide BareVotes, BareSigned, BareDecisions, BareLast, EnterPrevote, IsProposalComplete;
    var s1 := SetStep(Schedule(s, height, round, STEP_PROPOSE), round, STEP_PROPOSE);
    BareComplete(s1);
    BareEnterPrevote(s1, env, height, round);
  }

  lemma BareEnterNewRound(s: RoundState, env: Env, height: int, round: nat)
    ensures Bare(EnterNewRound(s, env, height, round)) == EnterNewRound(Bare(s), env, height, round)
  {
    hide BareVotes, BareSigned, BareDecisions, BareLast, EnterPropose, SetRound;
    RoundFacts(s, 0);
    BareSetRound(s.votes, round + 1);
    BareEnterPropose(StartRound(s, round), env, height, round);
  }

  lemma BareWaits(s: RoundState, height: int, round: nat)
    ensures Bare(EnterPrevoteWait(s, height, round)) == EnterPrevoteWait(Bare(s), height, round)
    ensures Bare(EnterPrecommitWait(s, height, round)) == EnterPrecommitWait(Bare(s), height, round)
  {
    hide BareVotes, BareSigned, BareDecisions, BareLast, BareSet, Prevotes, Precommits;
    RoundFacts(s, round);
  }

  lemma BarePrecommitBlock(s: RoundState, env: Env, round: nat, id: BlockID)
    requires id.BlockID?
    ensures Bare(PrecommitBlock(s, env, round, id)) == PrecommitBlock(Bare(s), env, round, id)
  {
    hide BareVotes, BareSigned, BareDecisions, BareLast, Sign;
    BareSign(s.(lockedRound := round), Precommit, id);
    BareSign(s.(lockedRound := round, lockedBlock := s.proposalBlock, lockedParts := PartsHeader(s.proposalParts)),
             Precommit, id);
    var s1 := Unlock(s);
    BareSign(if HasHeader(s1.proposalParts, id.parts) then s1
             else ExpectParts(s1.(proposalBlock := None), id.parts), Precommit, NilBlock);
  }

  lemma BareEnterPrecommit(s: RoundState, env: Env, height: int, round: nat)
    ensures Bare(EnterPrecommit(s, env, height, round)) == EnterPrecommit(Bare(s), env, height, round)
  {
    hide BareVotes, BareSigned, BareDecisions, BareLast, BareSet, Prevotes, Precommits, PrecommitBlock;
    RoundFacts(s, round);
    BareSign(s, Precommit, NilBlock);
    BareSign(Unlock(s), Precommit, NilBlock);
    var maj := Prevotes(s.votes, round).maj23;
    if maj.Some? && maj.value.BlockID? {
      BarePrecommitBlock(s, env, round, maj.value);
    }
  }

  lemma BareUpdateToState(s: RoundState, chain: Chain)
    ensures Bare(UpdateToState(s, chain)) == UpdateToState(Bare(s), chain)
  {
    hide BareVotes, BareSet, Precommits;
    RoundFacts(s, s.commitRound);
    BareHashes(s.decisions);
    BareNew();
  }

  lemma BareDecide(s: RoundState, d: Decision)
    ensures Bare(s.(decisions := s.decisions + [d])).decisions
         == Bare(s).decisions + [d.(votes := BareVotes(d.votes))]
  {
    hide BareVotes;
  }

  lemma BareFinalize(s: RoundState, chain: Chain, env: Env, height: int)
    ensures Bare(FinalizeCommit(s, chain, env, height)) == FinalizeCommit(Bare(s), chain, env, height)
  {
    hide BareVotes, BareSigned, BareDecisions, BareLast, BareSet, Precommits, Prevotes, UpdateToState;
    RoundFacts(s, s.commitRound);
    var maj := Precommits(s.votes, s.commitRound).maj23;
    if maj.Some? {
      var d := Decision(maj.value, s.commitRound, s.votes);
      BareDecide(s, d);
      BareUpdateToState(s.(decisions := s.decisions + [d]), chain);
    }
  }

  lemma BareTryFinalize(s: RoundState, chain: Chain, env: Env, height: int)
    ensures Bare(TryFinalizeCommit(s, chain, env, height)) == TryFinalizeCommit(Bare(s), chain, env, height)
  {
    hide BareVotes, BareSigned, BareDecisions, BareLast, BareSet, Precommits, Prevotes, FinalizeCommit;
    RoundFacts(s, s.commitRound);
    BareFinalize(s, chain, env, height);
  }

  lemma BareEnterCommit(s: RoundState, chain: Chain, env: Env, height: int, commitRound: int)
    ensures Bare(EnterCommit(s, chain, env, height, commitRound)) ==
      EnterCommit(Bare(s), chain, env, height, commitRound)
  {
    hide BareVotes, BareSigned, BareDecisions, BareLast, BareSet, Precommits, Prevotes, TryFinalizeCommit;
    RoundFacts(s, commitRound);
    var maj := Precommits(s.votes, commitRound).maj23;
    if maj.Some? {
      var s1 := if HashesTo(s.lockedBlock, maj.value)
                then s.(proposalBlock := s.lockedBlock, proposalParts := Some(PartSet(s.lockedParts, true)))
                else s;
      var s2 := if HashesTo(s1.proposalBlock, maj.value) || HasHeader(s1.proposalParts, PartsOf(maj.value))
                then s1 else ExpectParts(s1.(proposalBlock := None), PartsOf(maj.value));
      BareTryFinalize(SetStep(s2, s2.round, STEP_COMMIT).(commitRound := commitRound), chain, env, height);
    }
  }

  lemma BareOnPolka(s: RoundState, round: nat, id: BlockID)
    ensures Bare(OnPolka(s, round, id)) == OnPolka(Bare(s), round, id)
  {
    hide BareVotes, BareSigned, BareDecisions, BareLast, ValidOnPolka;
    var s1 := UnlockOnPolka(s, round, id);
    assert Bare(s1) == UnlockOnPolka(Bare(s), round, id);
    BareValidOnPolka(s1, round, id);
  }

  lemma BareValidOnPolka(s: RoundState, round: nat, id: BlockID)
    ensures Bare(ValidOnPolka(s, round, id)) == ValidOnPolka(Bare(s), round, id)
  {
    hide BareVotes, BareSigned, BareDecisions, BareLast;
  }

  lemma BareOnPrevote(s: RoundState, env: Env, round: nat)
    ensures Bare(OnPrevote(s, env, round)) == OnPrevote(Bare(s), env, round)
  {
    hide BareVotes, BareSigned, BareDecisions, BareLast, BareSet, Precommits, Prevotes, IsProposalComplete,
      EnterNewRound, EnterPrevote, EnterPrecommit, EnterPrevoteWait, OnPolka;
    RoundFacts(s, round);
    var maj := Prevotes(s.votes, round).maj23;
    var s1 := if maj.Some? then OnPolka(s, round, maj.value) else s;
    if maj.Some? {
      BareOnPolka(s, round, maj.value);
    }
    BareComplete(s1);
    BareEnterNewRound(s1, env, s1.height, round);
    BareEnterPrecommit(s1, env, s1.height, round);
    BareWaits(s1, s1.height, round);
    BareEnterPrevote(s1, env, s1.height, s1.round);
  }

  lemma BareOnPrecommit(s: RoundState, chain: Chain, env: Env, round: nat)
    ensures Bare(OnPrecommit(s, chain, env, round)) == OnPrecommit(Bare(s), chain, env, round)
  {
    hide BareVotes, BareSigned, BareDecisions, BareLast, BareSet, Precommits, Prevotes,
      EnterNewRound, EnterPrecommit, EnterPrecommitWait, EnterCommit;
    RoundFacts(s, round);
    var s1 := EnterNewRound(s, env, s.height, round);
    var s2 := EnterPrecommit(s1, env, s.height, round);
    var s3 := EnterCommit(s2, chain, env, s.height, round);
    BareEnterNewRound(s, env, s.height, round);
    BareEnterPrecommit(s1, env, s.height, round);
    BareWaits(s1, s.height, round);
    BareWaits(s2, s.height, round);
    BareEnterCommit(s2, chain, env, s.height, round);
    BareEnterNewRound(s3, env, s3.height, 0);
  }

  /** The set that a vote goes to. */
  function Destination(s: RoundState, vote: Vote): VoteSet {
    if vote.height + 1 == s.height && vote.kind.Precommit? then
      if s.lastCommit.Some? then s.lastCommit.value.votes else EmptyVoteSet
    else SetOf(s.votes, vote.kind, vote.round)
  }

  lemma BareLastCommitVote(s: RoundState, env: Env, vote: Vote)
    requires s.lastCommit.Some? ==>
      Tidy(s.lastCommit.value.votes) && !CountsByClaim(s.lastCommit.value.votes, vote.voter, vote.id)
    ensures Bare(AddLastCommitVote(s, env, vote)) == AddLastCommitVote(Bare(s), env, vote)
  {
    hide BareVotes, BareSigned, BareDecisions, BareSet, EnterNewRound, AddVoteToSet, Tidy, CountsByClaim;
    if s.lastCommit.Some? {
      var lc := s.lastCommit.value;
      BareAddToSet(lc.votes, lc.voters, vote.voter, vote.id);
      var vs := AddVoteToSet(lc.votes, lc.voters, vote.voter, vote.id).0;
      SetFacts(vs);
      BareEnterNewRound(s.(lastCommit := Some(lc.(votes := vs))), env, s.height, 0);
    }
  }

  lemma BareHandleVote(s: RoundState, chain: Chain, env: Env, vote: Vote, peer: nat)
    requires Tidy(Destination(s, vote)) && !CountsByClaim(Destination(s, vote), vote.voter, vote.id)
    ensures Bare(HandleVote(s, chain, env, vote, peer)) == HandleVote(Bare(s), chain, env, vote, peer)
  {
    hide BareVotes, BareSigned, BareDecisions, BareLast, BareSet, AddVote, OnPrevote, OnPrecommit,
      AddLastCommitVote, Tidy, CountsByClaim;
    if vote.height + 1 == s.height && vote.kind.Precommit? {
      BareLastCommitVote(s, env, vote);
    } else if vote.height == s.height {
      BareAddVote(s.votes, s.voters, vote, peer);
      var s1 := s.(votes := AddVote(s.votes, s.voters, vote, peer).0);
      BareOnPrevote(s1, env, vote.round);
      BareOnPrecommit(s1, chain, env, vote.round);
    }
  }

  lemma BareCompleteProposal(s: RoundState, chain: Chain, env: Env, height: int)
    ensures Bare(HandleCompleteProposal(s, chain, env, height)) == HandleCompleteProposal(Bare(s), chain, env, height)
  {
    hide BareVotes, BareSigned, BareDecisions, BareLast, BareSet, Precommits, Prevotes, IsProposalComplete,
      EnterPrevote, EnterPrecommit, TryFinalizeCommit;
    RoundFacts(s, s.round);
    var maj := Prevotes(s.votes, s.round).maj23;
    var s1 := if maj.Some? && maj.value.BlockID? && s.validRound < s.round && HashesTo(s.proposalBlock, maj.value)
              then s.(validRound := s.round, validBlock := s.proposalBlock) else s;
    BareComplete(s1);
    BareEnterPrevote(s1, env, height, s1.round);
    var s2 := EnterPrevote(s1, env, height, s1.round);
    BareEnterPrecommit(s2, env, height, s2.round);
    BareTryFinalize(s1, chain, env, height);
  }

  lemma BareBlockPart(s: RoundState, chain: Chain, env: Env, height: int, complete: bool, block: Option<int>)
    ensures Bare(HandleBlockPart(s, chain, env, height, complete, block))
         == HandleBlockPart(Bare(s), chain, env, height, complete, block)
  {
    hide BareVotes, BareSigned, BareDecisions, BareLast, HandleCompleteProposal;
    if s.proposalParts.Some? {
      var s1 := s.(proposalParts := Some(s.proposalParts.value.(complete := true)));
      BareCompleteProposal(if block.Some? then s1.(proposalBlock := block) else s1, chain, env, height);
    }
  }

  lemma BareTimeout(s: RoundState, env: Env, t: Timeout)
    ensures Bare(HandleTimeout(s, env, t)) == HandleTimeout(Bare(s), env, t)
  {
    hide BareVotes, BareSigned, BareDecisions, BareLast, EnterNewRound, EnterPropose, EnterPrevote, EnterPrecommit;
    BareEnterNewRound(s, env, t.height, 0);
    BareEnterPropose(s, env, t.height, 0);
    BareEnterPrevote(s, env, t.height, t.round);
    BareEnterPrecommit(s, env, t.height, t.round);
    BareEnterNewRound(EnterPrecommit(s, env, t.height, t.round), env, t.height, t.round + 1);
  }

  /** Handling an input and taking out the claims can be done in either order, unless the
      input is a vote that counts only because of a claim. */
  lemma BareHandle(s: RoundState, chain: Chain, env: Env, input: Input)
    requires !input.TxsAvailableInput? && !input.Maj23Input?
    requires input.VoteInput? ==>
      var vs := Destination(s, input.vote);
      Tidy(vs) && !CountsByClaim(vs, input.vote.voter, input.vote.id)
    ensures Bare(Handle(s, chain, env, input)) == Handle(Bare(s), chain, env, input)
  {
    hide BareVotes, BareSigned, BareDecisions, BareLast, HandleVote, HandleBlockPart, HandleTimeout, Tidy,
      CountsByClaim, Destination;
    match input
    case VoteInput(vote, peer) => BareHandleVote(s, chain, env, vote, peer);
    case BlockPartInput(h, complete, block) => BareBlockPart(s, chain, env, h, complete, block);
    case TimeoutInput(t) => BareTimeout(s, env, t);
    case ProposalInput(_, _, _) =>
  }

  /** A claim leaves nothing that is not taken out. */
  lemma BareHandleClaim(s: RoundState, chain: Chain, env: Env, input: Input)
    requires input.Maj23Input?
    ensures Bare(Handle(s, chain, env, input)) == Bare(s)
  {
    hide BareVotes, BareSigned, BareDecisions, BareLast;
    BareClaim(s.votes, input.kind, input.round, input.peer, input.id);
  }
}
