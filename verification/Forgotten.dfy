/** What a replay can lose: news of transactions, claims of peers, and a first round that was
    entered before the end of the height below was marked. */
module Forgotten {
  import opened Collections
  import opened Quorum
  import opened VoteSets
  import opened RoundStates
  import opened NodeInvariant
  import opened Replays
  import opened Starts
  import opened Restarts
  import opened Runs
  import opened Disagreement
  import A = Agreement

  /** The node waits for transactions in round 0 and holds all it takes to lock a block:
      the polka came first, then the block, then the proposal. */
  ghost predicate AboutToLock(s: RoundState, env: Env, id: BlockID) {
    && s.failure.None? && s.round == 0 && s.step == STEP_NEW_ROUND && s.lockedBlock.None? && s.votes.round >= 0
    && s.proposal.Some? && s.proposal.value.polRound == -1
    && id.BlockID? && s.proposalBlock == Some(id.hash) && Prevotes(s.votes, 0).maj23 == Some(id)
    && s.validRound >= 0 && env.validBlock(0, id.hash) && PartsHeader(s.proposalParts) == id.parts
  }

  /** The node's own prevote, or another late one. */
  ghost predicate LatePrevote(s: RoundState, vote: Vote, id: BlockID) {
    && vote.kind.Prevote? && vote.height == s.height && vote.round == 0 && vote.id == id
    && 0 in s.votes.sets && HasAddress(s.voters, vote.voter) && !KnowsVote(Prevotes(s.votes, 0), vote.voter, id)
    && vote.voter !in Prevotes(s.votes, 0).votes
  }

  lemma LateVoteCounts(votes: HeightVoteSet, voters: VoterSet, vote: Vote, peer: nat, id: BlockID)
    requires vote.kind.Prevote? && vote.round == 0 && vote.id == id && 0 in votes.sets
    requires HasAddress(voters, vote.voter) && !KnowsVote(Prevotes(votes, 0), vote.voter, id)
    requires vote.voter !in Prevotes(votes, 0).votes && Prevotes(votes, 0).maj23 == Some(id)
    ensures AddVote(votes, voters, vote, peer).1
    ensures var votes' := AddVote(votes, voters, vote, peer).0;
      votes'.round == votes.round && Prevotes(votes', 0).maj23 == Some(id)
  {
    hide HasAddress, QuorumWeight, WeightAt;
  }

  /** News of transactions makes the node prevote, and the next prevote makes it lock and
      precommit. Replayed without the news, the same inputs leave it unlocked. */
  lemma NewsForgotten(s: RoundState, chain: Chain, env: Env, id: BlockID, vote: Vote, peer: nat)
    requires AboutToLock(s, env, id) && LatePrevote(s, vote, id)
    ensures var live := Handle(Handle(s, chain, env, TxsAvailableInput(false)), chain, env, VoteInput(vote, peer));
      && live.lockedBlock == Some(id.hash) && |live.signed| == |s.signed| + 2
      && live.signed[|s.signed| + 1].vote == Vote(Precommit, s.height, 0, id, s.self)
    ensures var replayed := Handle(s, chain, env, VoteInput(vote, peer));
      && replayed.lockedBlock.None? && replayed.signed == s.signed && replayed.failure.None?
      && replayed.height == s.height
  {
    hide AddVote, HasTwoThirdsAny;
    LateVoteCounts(s.votes, s.voters, vote, peer, id);
    var s1 := Handle(s, chain, env, TxsAvailableInput(false));
    assert s1.step == STEP_PREVOTE && s1.votes == s.votes && s1.voters == s.voters && s1.validRound == s.validRound;
    assert |s1.signed| == |s.signed| + 1;
    var votes := AddVote(s.votes, s.voters, vote, peer).0;
    var s2 := s1.(votes := votes);
    assert OnPolka(s2, 0, id) == s2;
    assert POLRound(votes, votes.round) >= 0;
    assert Handle(s1, chain, env, VoteInput(vote, peer)) == OnPrevote(s2, env, 0);
    assert OnPrevote(s2, env, 0) == EnterPrecommit(s2, env, s.height, 0);
  }

  /** The voter has another vote in this set, and nobody has claimed a majority for the
      block of this one. */
  ghost predicate Conflicting(hvs: HeightVoteSet, voters: VoterSet, vote: Vote, claimer: nat) {
    var vs := SetOf(hvs, vote.kind, vote.round);
    && vote.round in hvs.sets && HasAddress(voters, vote.voter) && !KnowsVote(vs, vote.voter, vote.id)
    && vote.voter in vs.votes && vs.maj23.None? && claimer !in vs.peerMaj23s
    && (vote.id in vs.byBlock ==> !vs.byBlock[vote.id].peerMaj23)
  }

  /** The second vote of a voter counts after a peer's claim, and not in the replay, which
      lacks the claim. */
  lemma ClaimForgotten(s: RoundState, chain: Chain, env: Env, vote: Vote, peer: nat, claimer: nat)
    requires s.failure.None? && vote.height == s.height && Conflicting(s.votes, s.voters, vote, claimer)
    ensures var claimed := Handle(s, chain, env, Maj23Input(vote.kind, vote.round, claimer, vote.id));
      && LostOnReplay(claimed, VoteInput(vote, peer))
      && var (votes, added) := AddVote(claimed.votes, s.voters, vote, peer);
      && added && vote.id in SetOf(votes, vote.kind, vote.round).byBlock
      && vote.voter in SetOf(votes, vote.kind, vote.round).byBlock[vote.id].voters
    ensures Handle(s, chain, env, VoteInput(vote, peer)) == s
  {
    hide HasAddress, QuorumWeight, WeightAt;
    assert ReplaceSet(s.votes, vote.kind, vote.round, SetOf(s.votes, vote.kind, vote.round)).sets == s.votes.sets;
  }


  // ------------------------------------------------------------------------ early rounds

  lemma AheadTaken(hvs: HeightVoteSet, voters: VoterSet, vote: Vote, peer: nat)
    requires HasAddress(voters, vote.voter) && vote.round !in hvs.sets
    requires peer in hvs.catchup ==> |hvs.catchup[peer]| < 2
    ensures var (hvs', added) := AddVote(hvs, voters, vote, peer);
      && added && hvs'.sets.Keys == hvs.sets.Keys + {vote.round}
      && hvs'.catchup == hvs.catchup[peer := (if peer in hvs.catchup then hvs.catchup[peer] else []) + [vote.round]]
  {
    hide HasAddress, QuorumWeight, WeightAt;
  }

  lemma TrackedTaken(hvs: HeightVoteSet, voters: VoterSet, vote: Vote, peer: nat)
    requires vote.round in hvs.sets
    ensures var hvs' := AddVote(hvs, voters, vote, peer).0;
      hvs'.sets.Keys == hvs.sets.Keys && hvs'.catchup == hvs.catchup
  {
    hide AddVoteToSet;
  }

  lemma TooFarAhead(hvs: HeightVoteSet, voters: VoterSet, vote: Vote, peer: nat)
    requires vote.round !in hvs.sets && peer in hvs.catchup && |hvs.catchup[peer]| >= 2
    ensures AddVote(hvs, voters, vote, peer) == (hvs, false)
  {
  }

  /** A node that has entered its first round takes a peer's votes of the next round and of
      two rounds beyond. Replayed from the marker it has not entered it, and the third of
      these votes finds no room, whatever majority it would make. */
  lemma EarlyVoteForgotten(voters: VoterSet, next: Vote, second: Vote, third: Vote, peer: nat)
    requires HasAddress(voters, next.voter) && HasAddress(voters, second.voter) && HasAddress(voters, third.voter)
    requires next.round == 1 && second.round >= 2 && third.round >= 2 && second.round != third.round
    ensures var live := SetRound(NewHeightVoteSet, 1);
      var live1 := AddVote(live, voters, next, peer).0;
      var live2 := AddVote(live1, voters, second, peer).0;
      AddVote(live2, voters, third, peer).1
    ensures var r1 := AddVote(NewHeightVoteSet, voters, next, peer).0;
      var r2 := AddVote(r1, voters, second, peer).0;
      AddVote(r2, voters, third, peer) == (r2, false)
  {
    hide HasAddress, AddVote;
    var live := SetRound(NewHeightVoteSet, 1);
    TrackedTaken(live, voters, next, peer);
    var live1 := AddVote(live, voters, next, peer).0;
    AheadTaken(live1, voters, second, peer);
    AheadTaken(AddVote(live1, voters, second, peer).0, voters, third, peer);
    AheadTaken(NewHeightVoteSet, voters, next, peer);
    var r1 := AddVote(NewHeightVoteSet, voters, next, peer).0;
    AheadTaken(r1, voters, second, peer);
    TooFarAhead(AddVote(r1, voters, second, peer).0, voters, third, peer);
  }

  // ------------------------------------------------------------------ a run without news

  const WAITING := PLAIN.(waitForTxs := true)

  /** A polka, the block and its proposal, in this order. */
  function PolkaFirst(h: int): seq<Turn> {
    [Turn(WAITING, TimeoutInput(Timeout(h, 0, STEP_NEW_HEIGHT))),
     Turn(WAITING, By(LARGE, Prevote, h, 0, KEPT)),
     Turn(WAITING, By(FAULTY, Prevote, h, 0, KEPT)),
     Turn(WAITING, Part(h, KEPT)),
     Turn(WAITING, Prop(h, 0, KEPT))]
  }

  /** At rest above the first height. */
  ghost predicate Resting(s: RoundState, chain: Chain, h: int) {
    AtRest(s, chain) && s.voters == THREE && s.height == h && s.decisions != [] && s.self == SMALL
  }

  lemma RestingFacts(s: RoundState, chain: Chain, h: int)
    requires Resting(s, chain, h)
    ensures s.round == 0 && s.step == STEP_NEW_HEIGHT && s.failure.None? && s.votes == NewHeightVoteSet
    ensures s.proposal.None? && s.proposalBlock.None? && s.proposalParts.None? && s.lockedBlock.None?
    ensures s.validRound == -1 && !s.triggeredTimeoutPrecommit
  {
    hide Hashes, StoredCommit;
  }

  lemma BeginsWaiting(s: RoundState, chain: Chain, h: int)
    requires Resting(s, chain, h)
    ensures Handle(s, chain, WAITING, TimeoutInput(Timeout(h, 0, STEP_NEW_HEIGHT)))
         == s.(step := STEP_NEW_ROUND, votes := SetRound(NewHeightVoteSet, 1))
  {
    RestingFacts(s, chain, h);
    hide SetRound, AtRest, EnterPropose;
  }

  /** The votes of the first round that the node keeps track of. */
  lemma Tracked()
    ensures var votes := SetRound(NewHeightVoteSet, 1);
      0 in votes.sets && votes.round == 1 && Prevotes(votes, 0) == EmptyVoteSet
  {
    hide TrackRounds;
    SetRoundSame(NewHeightVoteSet, 1);
    var votes := SetRound(NewHeightVoteSet, 1);
    assert Prevotes(votes, 0) == SetOf(votes, Prevote, 0) == SetOf(NewHeightVoteSet, Prevote, 0);
  }

  /** Waiting in the first round with these prevotes. */
  ghost predicate Waits(s: RoundState, h: int, prevotes: VoteSet) {
    && s.self == SMALL && s.height == h && s.round == 0 && s.step == STEP_NEW_ROUND && s.failure.None?
    && s.voters == THREE && s.proposal.None? && s.proposalBlock.None? && s.lockedBlock.None? && s.validRound == -1
    && 0 in s.votes.sets && s.votes.round >= 0 && Prevotes(s.votes, 0) == prevotes
  }

  lemma TakesPrevote(s: RoundState, chain: Chain, h: int)
    requires Waits(s, h, EmptyVoteSet)
    ensures var s' := Handle(s, chain, WAITING, By(LARGE, Prevote, h, 0, KEPT));
      Waits(s', h, Alone(KEPT)) && s'.signed == s.signed && s'.decisions == s.decisions
  {
    hide AddVote, AddVoteToSet, HasTwoThirdsAny, ReplaceSet, Prevotes, Alone, EnterPrecommit,
      EnterPrevote, EnterNewRound;
    Votes(KEPT, KEPT);
    PrevotesAre(s.votes, 0);
    AddTracked(s.votes, THREE, Vote(Prevote, h, 0, KEPT, LARGE), LARGE);
    Replaced(s.votes, Prevote, 0, Alone(KEPT));
    PrevotesAre(ReplaceSet(s.votes, Prevote, 0, Alone(KEPT)), 0);
    NotMajority(KEPT);
  }

  lemma TakesPolka(s: RoundState, chain: Chain, h: int)
    requires Waits(s, h, Alone(KEPT)) && s.proposalParts.None?
    ensures var s' := Handle(s, chain, WAITING, By(FAULTY, Prevote, h, 0, KEPT));
      && Waits(s', h, Both(KEPT, KEPT)) && s'.proposalParts == Some(PartSet(7, false))
      && s'.signed == s.signed && s'.decisions == s.decisions
  {
    hide AddVote, AddVoteToSet, HasTwoThirdsAny, ReplaceSet, Prevotes, Alone, Both, EnterPrecommit, EnterPrevote,
      EnterNewRound;
    Votes(KEPT, KEPT);
    PrevotesAre(s.votes, 0);
    AddTracked(s.votes, THREE, Vote(Prevote, h, 0, KEPT, FAULTY), FAULTY);
    Replaced(s.votes, Prevote, 0, Both(KEPT, KEPT));
    PrevotesAre(ReplaceSet(s.votes, Prevote, 0, Both(KEPT, KEPT)), 0);
  }

  lemma BothFacts()
    ensures Both(KEPT, KEPT).maj23 == Some(KEPT)
    ensures SMALL !in Both(KEPT, KEPT).votes && !KnowsVote(Both(KEPT, KEPT), SMALL, KEPT) && HasAddress(THREE, SMALL)
  {
    Votes(KEPT, KEPT);
    Weights();
    hide WeightAt, QuorumWeight, TotalWeight, HasAddress;
  }

  lemma TakesBlock(s: RoundState, chain: Chain, h: int)
    requires Waits(s, h, Both(KEPT, KEPT)) && s.proposalParts == Some(PartSet(7, false))
    ensures var s1 := Handle(s, chain, WAITING, Part(h, KEPT));
      var s2 := Handle(s1, chain, WAITING, Prop(h, 0, KEPT));
      && s1.signed == s2.signed == s.signed && s1.decisions == s2.decisions == s.decisions
      && AboutToLock(s2, WAITING, KEPT) && LatePrevote(s2, Vote(Prevote, h, 0, KEPT, SMALL), KEPT)
      && s2.height == h && s2.self == SMALL
  {
    hide Both, HasAddress, KnowsVote, EnterPrevote, EnterPrecommit, TryFinalizeCommit;
    BothFacts();
  }

  /** From rest the five inputs make the node wait for nothing but news. */
  lemma PolkaFirstWaits(s: RoundState, chain: Chain, h: int)
    requires Resting(s, chain, h)
    ensures var t := PolkaFirst(h);
      var s' := After(chain, s, t, 5);
      && AboutToLock(s', WAITING, KEPT) && LatePrevote(s', Vote(Prevote, h, 0, KEPT, SMALL), KEPT)
      && s'.height == h && s'.self == SMALL && s'.signed == s.signed
      && (forall n | 0 <= n <= 5 :: After(chain, s, t, n).decisions == s.decisions)
  {
    hide Handle, AtRest, AboutToLock, LatePrevote, Both, Alone, SetRound;
    var t := PolkaFirst(h);
    RestingFacts(s, chain, h);
    BeginsWaiting(s, chain, h);
    Tracked();
    assert After(chain, s, t, 0) == s;
    var s1 := After(chain, s, t, 1);
    assert s1 == Handle(s, chain, WAITING, TimeoutInput(Timeout(h, 0, STEP_NEW_HEIGHT)));
    TakesPrevote(s1, chain, h);
    LeavesParts(s1, chain, h);
    var s2 := After(chain, s, t, 2);
    assert s2 == Handle(s1, chain, WAITING, By(LARGE, Prevote, h, 0, KEPT));
    TakesPolka(s2, chain, h);
    var s3 := After(chain, s, t, 3);
    assert s3 == Handle(s2, chain, WAITING, By(FAULTY, Prevote, h, 0, KEPT));
    TakesBlock(s3, chain, h);
    assert After(chain, s, t, 4) == Handle(s3, chain, WAITING, Part(h, KEPT));
    assert After(chain, s, t, 5) == Handle(After(chain, s, t, 4), chain, WAITING, Prop(h, 0, KEPT));
  }

  lemma LeavesParts(s: RoundState, chain: Chain, h: int)
    requires Waits(s, h, EmptyVoteSet)
    ensures Handle(s, chain, WAITING, By(LARGE, Prevote, h, 0, KEPT)).proposalParts == s.proposalParts
  {
    hide AddVote, AddVoteToSet, HasTwoThirdsAny, ReplaceSet, Prevotes, Alone, EnterPrecommit,
      EnterPrevote, EnterNewRound;
    Votes(KEPT, KEPT);
    PrevotesAre(s.votes, 0);
    AddTracked(s.votes, THREE, Vote(Prevote, h, 0, KEPT, LARGE), LARGE);
    Replaced(s.votes, Prevote, 0, Alone(KEPT));
    PrevotesAre(ReplaceSet(s.votes, Prevote, 0, Alone(KEPT)), 0);
    NotMajority(KEPT);
  }

  lemma AllOfIt(h: int)
    ensures Written(PolkaFirst(h)) == PolkaFirst(h)
  {
    Kept(PolkaFirst(h));
  }

  lemma WrittenMore(turns: seq<Turn>, t: Turn)
    ensures Written(turns + [t]) == if IsWritten(t.input) then Written(turns) + [t] else Written(turns)
  {
    assert (turns + [t])[..|turns|] == turns;
  }

  lemma {:induction false} Kept(turns: seq<Turn>)
    requires forall t | t in turns :: IsWritten(t.input)
    ensures Written(turns) == turns
  {
    if turns != [] {
      var before := turns[..|turns| - 1];
      assert forall t | t in before :: t in turns;
      Kept(before);
      assert before + [turns[|turns| - 1]] == turns;
    }
  }

  /** At rest at the second height, whose beginning is marked. */
  lemma SecondHeightMarked(h0: int) returns (sys: System)
    ensures Good(sys, ThreeVoters(h0), {SMALL}) && Marked(Of(sys, ThreeVoters(h0), SMALL))
    ensures var node := Of(sys, ThreeVoters(h0), SMALL);
      node.turns == [] && node.synced == 0 && node.entry == At(sys, ThreeVoters(h0), SMALL)
    ensures Resting(At(sys, ThreeVoters(h0), SMALL), ThreeVoters(h0), h0 + 1)
  {
    ThreeOK(h0);
    hide Good, AtRest, Init, ChainOK, At;
    var chain, first := ThreeVoters(h0), BlockID(5, 5);
    var sys0 := Begins(chain, {SMALL});
    FirstRests(chain, SMALL);
    FirstHas(chain, SMALL);
    RestFacts(At(sys0, chain, SMALL), h0);
    var sys1 := Cheat(sys0, chain, {SMALL}, Vote(Precommit, h0, 0, first, LARGE));
    var sys2 := Cheat(sys1, chain, {SMALL}, Vote(Precommit, h0, 0, first, FAULTY));
    sys := SmallFollows(sys2, chain, {SMALL}, h0, first);
    RestFacts(At(sys, chain, SMALL), h0);
    GoodFacts(sys, chain, {SMALL}, SMALL);
  }

  /** A run in which one node ends locked on a block it has precommitted, with the beginning
      of its height marked and everything flushed. It dies, and the replay leaves it
      unlocked. */
  lemma LockForgotten(h0: int) returns (before: System, sys: System)
    ensures var chain := ThreeVoters(h0);
      && Reachable(before, chain) && SMALL in before.nodes && Marked(before.nodes[SMALL])
      && before.nodes[SMALL].synced == |before.nodes[SMALL].turns|
      && Now(chain, before.nodes[SMALL]).lockedBlock == Some(KEPT.hash)
      && Vote(Precommit, h0 + 1, 0, KEPT, SMALL) in before.log
    ensures var chain := ThreeVoters(h0);
      && Reachable(sys, chain) && SMALL in sys.nodes && sys.log == before.log
      && Now(chain, sys.nodes[SMALL]).lockedBlock.None? && Now(chain, sys.nodes[SMALL]).height == h0 + 1
  {
    var chain, h := ThreeVoters(h0), h0 + 1;
    before := LocksOnNews(h0);
    hide Good, Of, At, Handle, AtRest;
    GoodFacts(before, chain, {SMALL}, SMALL);
    GoodReaches(before, chain);
    var node := Of(before, chain, SMALL);
    NextAgain(before, chain, SMALL);
    sys := System(before.nodes[SMALL := Restarted(chain, node, |node.turns|)], before.log);
    NextReachable(before, chain, Restarts(SMALL, |node.turns|, []), sys);
    ReplayUnlocked(node, chain, h);
  }

  lemma GoodReaches(sys: System, chain: Chain)
    requires Good(sys, chain, {SMALL})
    ensures Reachable(sys, chain)
  {
  }

  function News(): Turn {
    Turn(WAITING, TxsAvailableInput(false))
  }

  function Own(h: int): Turn {
    Turn(WAITING, By(SMALL, Prevote, h, 0, KEPT))
  }

  /** The replay of the inputs without the news. */
  lemma ReplayUnlocked(node: Node, chain: Chain, h: int)
    requires Resting(node.entry, chain, h) && Marked(node) && node.turns == PolkaFirst(h) + [News()] + [Own(h)]
    ensures var s := Now(chain, Restarted(chain, node, |node.turns|));
      s.lockedBlock.None? && s.height == h
  {
    hide AtRest, Handle, AboutToLock, LatePrevote, Fresh;
    var f, turns := Fresh(node.entry, chain), node.turns;
    FreshResting(node.entry, chain, h);
    PolkaFirstWaits(f, chain, h);
    AllOfIt(h);
    assert turns[..|turns|] == turns;
    WrittenMore(PolkaFirst(h), News());
    WrittenMore(PolkaFirst(h) + [News()], Own(h));
    var w := Written(turns);
    assert w == PolkaFirst(h) + [Own(h)];
    AfterPrefix(chain, f, PolkaFirst(h), w, 5);
    NewsForgotten(After(chain, f, w, 5), chain, WAITING, KEPT, Vote(Prevote, h, 0, KEPT, SMALL), SMALL);
    assert After(chain, f, w, 6) == Handle(After(chain, f, w, 5), chain, WAITING, Own(h).input);
  }

  lemma FreshResting(s: RoundState, chain: Chain, h: int)
    requires Resting(s, chain, h)
    ensures Resting(Fresh(s, chain), chain, h)
  {
    hide BareVotes, SeenCommit, Hashes;
    FreshRests(s, chain);
    BareHashes(s.decisions);
  }

  /** With the news the node locks and precommits. */
  lemma LocksOnNews(h0: int) returns (sys: System)
    ensures var chain := ThreeVoters(h0);
      && Good(sys, chain, {SMALL}) && At(sys, chain, SMALL).lockedBlock == Some(KEPT.hash)
      && Vote(Precommit, h0 + 1, 0, KEPT, SMALL) in sys.log
      && var node := Of(sys, chain, SMALL);
      && Marked(node) && node.synced == |node.turns| && Resting(node.entry, chain, h0 + 1)
      && node.turns == PolkaFirst(h0 + 1) + [News()] + [Own(h0 + 1)]
  {
    ThreeOK(h0);
    hide Good, AtRest, ChainOK, At, Of, Handle, A.Asked, AboutToLock, LatePrevote;
    var chain, h := ThreeVoters(h0), h0 + 1;
    var sys0 := SecondHeightMarked(h0);
    var sys1 := Cheat(sys0, chain, {SMALL}, Vote(Prevote, h, 0, KEPT, LARGE));
    var sys2 := Cheat(sys1, chain, {SMALL}, Vote(Prevote, h, 0, KEPT, FAULTY));
    var s := At(sys2, chain, SMALL);
    PolkaFirstWaits(s, chain, h);
    Comes(s, chain, h, sys2.log);
    var sys3 := DoAll(sys2, chain, {SMALL}, SMALL, PolkaFirst(h));
    var s3, vote := At(sys3, chain, SMALL), Vote(Prevote, h, 0, KEPT, SMALL);
    NewsForgotten(s3, chain, WAITING, KEPT, vote, SMALL);
    NewsPrevotes(s3, chain, h);
    var s4 := Handle(s3, chain, WAITING, News().input);
    AskedLast(s3, s4, vote);
    var sys4 := DoPlain(sys3, chain, {SMALL}, SMALL, WAITING, News().input, [vote]);
    var s5 := Handle(s4, chain, WAITING, Own(h).input);
    PrevoteLocks(s4, chain, h);
    AskedLast(s4, s5, Vote(Precommit, h, 0, KEPT, SMALL));
    sys := DoPlain(sys4, chain, {SMALL}, SMALL, WAITING, Own(h).input, [Vote(Precommit, h, 0, KEPT, SMALL)]);
  }

  lemma Comes(s: RoundState, chain: Chain, h: int, log: seq<Vote>)
    requires Resting(s, chain, h) && Vote(Prevote, h, 0, KEPT, LARGE) in log && Vote(Prevote, h, 0, KEPT, FAULTY) in log
    ensures Uneventful(chain, s, PolkaFirst(h), log)
  {
    hide Handle, AtRest, AboutToLock, LatePrevote, After;
    PolkaFirstWaits(s, chain, h);
  }

  lemma NewsPrevotes(s: RoundState, chain: Chain, h: int)
    requires AboutToLock(s, WAITING, KEPT) && s.height == h && s.self == SMALL
    ensures var s' := Handle(s, chain, WAITING, News().input);
      && s'.decisions == s.decisions && s'.height == h && |s'.signed| == |s.signed| + 1
      && s'.signed[|s.signed|].vote == Vote(Prevote, h, 0, KEPT, SMALL)
  {
  }

  lemma PrevoteLocks(s: RoundState, chain: Chain, h: int)
    requires s.height == h
    ensures Handle(s, chain, WAITING, Own(h).input).decisions == s.decisions
  {
    hide AddVote, OnPrevote;
    PrevoteKeepsDecisions(
      s.(votes := AddVote(s.votes, s.voters, Vote(Prevote, h, 0, KEPT, SMALL), SMALL).0), WAITING, 0);
  }
}
