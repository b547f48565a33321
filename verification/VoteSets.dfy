/** Collected votes: VoteSet (one height, round and type) and HeightVoteSet
    (every round of one height). */
module VoteSets {
  import opened Collections
  import opened Quorum

  /** A vote is either for no block or for a complete block id. */
  datatype BlockID = NilBlock | BlockID(hash: int, parts: int)

  datatype VoteType = Prevote | Precommit

  datatype Vote = Vote(kind: VoteType, height: int, round: nat, id: BlockID, voter: nat)

  predicate HashesTo(block: Option<int>, id: BlockID) {
    block.Some? && id.BlockID? && block.value == id.hash
  }

  // ---------------------------------------------------------------- VoteSet

  datatype BlockVotes = BlockVotes(peerMaj23: bool, voters: set<nat>, sum: nat)

  datatype VoteSet = VoteSet(
    votes: map<nat, BlockID>,            // the canonical vote of each voter
    sum: nat,                            // weight of the voters seen
    maj23: Option<BlockID>,              // first +2/3 majority seen
    byBlock: map<BlockID, BlockVotes>,
    peerMaj23s: map<nat, BlockID>)

  const EmptyVoteSet := VoteSet(map[], 0, None, map[], map[])

  predicate KnowsVote(vs: VoteSet, voter: nat, id: BlockID) {
    || (voter in vs.votes && vs.votes[voter] == id)
    || (id in vs.byBlock && voter in vs.byBlock[id].voters)
  }

  predicate HasTwoThirdsAny(vs: VoteSet, voters: VoterSet) {
    vs.sum > TotalWeight(voters) * 2 / 3
  }

  predicate HasAll(vs: VoteSet, voters: VoterSet) {
    vs.sum == TotalWeight(voters)
  }

  /** The set of votes of one block after one more verified vote. */
  function CountVote(bv: BlockVotes, voter: nat, weight: nat): BlockVotes {
    if voter in bv.voters then bv
    else bv.(voters := bv.voters + {voter}, sum := bv.sum + weight)
  }

  /** Adds a vote whose voter and signature have been checked. */
  function AddVerifiedVote(vs: VoteSet, voters: VoterSet, voter: nat, id: BlockID): (VoteSet, bool) {
    var weight := WeightAt(voters, voter);
    var conflict := voter in vs.votes;
    var vs1 :=
      if !conflict then vs.(votes := vs.votes[voter := id], sum := vs.sum + weight)
      else if vs.maj23 == Some(id) then vs.(votes := vs.votes[voter := id])
      else vs;
    if conflict && (id !in vs.byBlock || !vs.byBlock[id].peerMaj23) then (vs1, false)
    else
      var before := if id in vs.byBlock then vs.byBlock[id] else BlockVotes(false, {}, 0);
      var after := CountVote(before, voter, weight);
      var vs2 := vs1.(byBlock := vs1.byBlock[id := after]);
      if before.sum < QuorumWeight(voters) <= after.sum && vs2.maj23.None? then
        // the votes of the majority block become the canonical ones
        (vs2.(maj23 := Some(id),
              votes := map a | a in vs2.votes.Keys + after.voters ::
                if a in after.voters then id else vs2.votes[a]), true)
      else (vs2, true)
  }

  /** The result says whether the vote was new and stored. */
  function AddVoteToSet(vs: VoteSet, voters: VoterSet, voter: nat, id: BlockID): (VoteSet, bool) {
    if !HasAddress(voters, voter) || KnowsVote(vs, voter, id) then (vs, false)
    else AddVerifiedVote(vs, voters, voter, id)
  }

  /** A peer claims to have seen +2/3 for a block. */
  function SetPeerMaj23(vs: VoteSet, peer: nat, id: BlockID): VoteSet {
    if peer in vs.peerMaj23s then vs
    else
      var vs1 := vs.(peerMaj23s := vs.peerMaj23s[peer := id]);
      var bv := if id in vs.byBlock then vs.byBlock[id] else BlockVotes(false, {}, 0);
      vs1.(byBlock := vs1.byBlock[id := bv.(peerMaj23 := true)])
  }

  /** What every reachable VoteSet satisfies. In particular maj23 is set as soon
      as, and only if, some block has +2/3 of the total weight. */
  ghost predicate VoteSetOK(vs: VoteSet, voters: VoterSet) {
    && vs.sum == WeightOf(voters, vs.votes.Keys)
    && (forall id | id in vs.byBlock :: BlockVotesOK(vs.byBlock[id], vs.votes.Keys, voters))
    && (vs.maj23.Some? ==>
          && vs.maj23.value in vs.byBlock && TwoThirds(voters, vs.byBlock[vs.maj23.value].voters)
          && Canonical(vs.votes, vs.byBlock[vs.maj23.value].voters, vs.maj23.value))
    && (vs.maj23.None? ==>
          forall id | id in vs.byBlock :: !TwoThirds(voters, vs.byBlock[id].voters))
  }

  /** These voters are listed with this vote, whatever else they have voted for. */
  ghost predicate Canonical(votes: map<nat, BlockID>, counted: set<nat>, id: BlockID) {
    forall a | a in counted :: a in votes && votes[a] == id
  }

  ghost predicate BlockVotesOK(bv: BlockVotes, seen: set<nat>, voters: VoterSet) {
    bv.voters <= seen && bv.sum == WeightOf(voters, bv.voters)
  }

  /** Every counted vote is one of the votes `cast`. */
  ghost predicate VoteSetFrom(vs: VoteSet, kind: VoteType, height: int, round: nat, cast: set<Vote>) {
    forall id, a | id in vs.byBlock && a in vs.byBlock[id].voters ::
      Vote(kind, height, round, id, a) in cast
  }

  lemma {:induction false} NoWeight(voters: VoterSet)
    ensures WeightOf(voters, {}) == 0
  {
    if voters != [] {
      NoWeight(voters[..|voters| - 1]);
    }
  }

  lemma EmptyVoteSetOK(voters: VoterSet)
    ensures VoteSetOK(EmptyVoteSet, voters)
  {
    NoWeight(voters);
    assert EmptyVoteSet.votes.Keys == {};
  }

  /** One more vote for a block: the count stays exact, and the quorum test of the
      code fires exactly when the block reaches +2/3. */
  lemma CountVoteOK(bv: BlockVotes, seen: set<nat>, voters: VoterSet, voter: nat)
    requires Distinct(voters) && BlockVotesOK(bv, seen, voters)
    ensures var bv' := CountVote(bv, voter, WeightAt(voters, voter));
      && BlockVotesOK(bv', seen + {voter}, voters)
      && bv'.voters == bv.voters + {voter}
      && (QuorumWeight(voters) <= bv.sum <==> TwoThirds(voters, bv.voters))
      && (QuorumWeight(voters) <= bv'.sum <==> TwoThirds(voters, bv'.voters))
      && (TwoThirds(voters, bv.voters) ==> TwoThirds(voters, bv'.voters))
  {
    var bv' := CountVote(bv, voter, WeightAt(voters, voter));
    if voter in bv.voters {
      assert bv.voters + {voter} == bv.voters;
    } else {
      WeightInsert(voters, bv.voters, voter);
    }
    WeightMonotone(voters, bv.voters, bv'.voters);
    QuorumWeightMeaning(voters, bv.sum);
    QuorumWeightMeaning(voters, bv'.sum);
  }

  /** The voters seen, and their joint weight, after a vote. */
  lemma AddVerifiedSum(vs: VoteSet, voters: VoterSet, voter: nat, id: BlockID)
    requires Distinct(voters) && VoteSetOK(vs, voters)
    ensures var vs' := AddVerifiedVote(vs, voters, voter, id).0;
      vs'.votes.Keys == vs.votes.Keys + {voter} && vs'.sum == WeightOf(voters, vs'.votes.Keys)
  {
    var vs' := AddVerifiedVote(vs, voters, voter, id).0;
    var before := if id in vs.byBlock then vs.byBlock[id] else BlockVotes(false, {}, 0);
    NoWeight(voters);
    CountVoteOK(before, vs.votes.Keys, voters, voter);
    if voter in vs.votes {
      assert vs.votes.Keys + {voter} == vs.votes.Keys;
    } else {
      WeightInsert(voters, vs.votes.Keys, voter);
    }
    assert vs'.votes.Keys == vs.votes.Keys + {voter};
  }

  /** The voters of the majority stay listed with it. */
  ghost predicate MajorityListed(vs: VoteSet) {
    vs.maj23.Some? && vs.maj23.value in vs.byBlock ==>
      Canonical(vs.votes, vs.byBlock[vs.maj23.value].voters, vs.maj23.value)
  }

  lemma AddVerifiedListed(vs: VoteSet, voters: VoterSet, voter: nat, id: BlockID)
    requires MajorityListed(vs) && (vs.maj23.Some? ==> vs.maj23.value in vs.byBlock)
    ensures MajorityListed(AddVerifiedVote(vs, voters, voter, id).0)
  {
  }

  lemma AddVerifiedVoteOK(vs: VoteSet, voters: VoterSet, voter: nat, id: BlockID)
    requires Distinct(voters) && VoteSetOK(vs, voters)
    ensures VoteSetOK(AddVerifiedVote(vs, voters, voter, id).0, voters)
  {
    var (vs', added) := AddVerifiedVote(vs, voters, voter, id);
    AddVerifiedSum(vs, voters, voter, id);
    AddVerifiedListed(vs, voters, voter, id);
    hide Canonical, WeightOf, TotalWeight, WeightAt;
    if added {
      var before := if id in vs.byBlock then vs.byBlock[id] else BlockVotes(false, {}, 0);
      NoWeight(voters);
      CountVoteOK(before, vs.votes.Keys, voters, voter);
      assert vs'.byBlock == vs.byBlock[id := CountVote(before, voter, WeightAt(voters, voter))];
    }
  }

  /** Adding a vote keeps the set well formed, never changes or drops a majority,
      and counts nothing but that vote. */
  lemma AddVoteToSetOK(vs: VoteSet, voters: VoterSet, voter: nat, id: BlockID)
    requires Distinct(voters) && VoteSetOK(vs, voters)
    ensures var vs' := AddVoteToSet(vs, voters, voter, id).0;
      && VoteSetOK(vs', voters)
      && (vs.maj23.Some? ==> vs'.maj23 == vs.maj23)
      && (forall k, a | k in vs'.byBlock && a in vs'.byBlock[k].voters ::
            (k == id && a == voter) || (k in vs.byBlock && a in vs.byBlock[k].voters))
  {
    AddVerifiedVoteOK(vs, voters, voter, id);
  }

  lemma SetPeerMaj23OK(vs: VoteSet, voters: VoterSet, peer: nat, id: BlockID)
    requires VoteSetOK(vs, voters)
    ensures var vs' := SetPeerMaj23(vs, peer, id);
      && VoteSetOK(vs', voters) && vs'.maj23 == vs.maj23
      && (forall k, a | k in vs'.byBlock && a in vs'.byBlock[k].voters ::
            k in vs.byBlock && a in vs.byBlock[k].voters)
  {
    NoWeight(voters);
  }

  /** A single-block majority is in particular +2/3 of anything. */
  lemma MajorityIsTwoThirdsAny(vs: VoteSet, voters: VoterSet)
    requires VoteSetOK(vs, voters) && vs.maj23.Some?
    ensures HasTwoThirdsAny(vs, voters)
  {
    WeightMonotone(voters, vs.byBlock[vs.maj23.value].voters, vs.votes.Keys);
    QuorumWeightMeaning(voters, vs.sum);
  }

  // ---------------------------------------------------------- HeightVoteSet

  datatype RoundVoteSet = RoundVoteSet(prevotes: VoteSet, precommits: VoteSet)

  datatype HeightVoteSet = HeightVoteSet(
    round: int,                          // max tracked round
    sets: map<int, RoundVoteSet>,
    catchup: map<nat, seq<int>>)         // up to two extra rounds per peer

  const EmptyRound := RoundVoteSet(EmptyVoteSet, EmptyVoteSet)

  const NewHeightVoteSet := HeightVoteSet(0, map[0 := EmptyRound], map[])

  /** SetRound panics when asked to go back. */
  predicate CanSetRound(hvs: HeightVoteSet, round: int) {
    hvs.round == 0 || hvs.round - 1 <= round
  }

  function TrackRounds(sets: map<int, RoundVoteSet>, from: int, last: int): (r: map<int, RoundVoteSet>)
    ensures forall k :: k in r <==> k in sets || from <= k <= last
    ensures forall k | k in r :: r[k] == if k in sets then sets[k] else EmptyRound
    decreases last + 1 - from
  {
    if from > last then sets
    else TrackRounds(if from in sets then sets else sets[from := EmptyRound], from + 1, last)
  }

  /** Starts tracking every round from hvs.round-1 up to `round`. */
  function SetRound(hvs: HeightVoteSet, round: int): HeightVoteSet {
    hvs.(round := round, sets := TrackRounds(hvs.sets, hvs.round - 1, round))
  }

  /** All rounds from the one before the present one up to the new one are tracked then, and
      no vote is lost. */
  lemma RoundsTracked(hvs: HeightVoteSet, round: int)
    ensures var hvs' := SetRound(hvs, round);
      && hvs'.round == round && hvs'.catchup == hvs.catchup
      && (forall r: int :: r in hvs'.sets <==> r in hvs.sets || hvs.round - 1 <= r <= round)
      && (forall kind, r: int :: SetOf(hvs', kind, r) == SetOf(hvs, kind, r))
  {
  }

  function Prevotes(hvs: HeightVoteSet, round: int): VoteSet {
    if round in hvs.sets then hvs.sets[round].prevotes else EmptyVoteSet
  }

  function Precommits(hvs: HeightVoteSet, round: int): VoteSet {
    if round in hvs.sets then hvs.sets[round].precommits else EmptyVoteSet
  }

  function SetOf(hvs: HeightVoteSet, kind: VoteType, round: int): VoteSet {
    if kind.Prevote? then Prevotes(hvs, round) else Precommits(hvs, round)
  }

  function ReplaceSet(hvs: HeightVoteSet, kind: VoteType, round: int, vs: VoteSet): HeightVoteSet
    requires round in hvs.sets
  {
    var rvs := hvs.sets[round];
    hvs.(sets := hvs.sets[round :=
      if kind.Prevote? then rvs.(prevotes := vs) else rvs.(precommits := vs)])
  }

  /** Makes room for the round of a vote, unless the peer used up its two extra rounds. */
  function TrackRound(hvs: HeightVoteSet, round: nat, peer: nat): HeightVoteSet {
    var seen := if peer in hvs.catchup then hvs.catchup[peer] else [];
    if round in hvs.sets || |seen| >= 2 then hvs
    else hvs.(sets := hvs.sets[round := EmptyRound], catchup := hvs.catchup[peer := seen + [round]])
  }

  function AddVote(hvs: HeightVoteSet, voters: VoterSet, vote: Vote, peer: nat): (HeightVoteSet, bool) {
    var hvs1 := TrackRound(hvs, vote.round, peer);
    if vote.round !in hvs1.sets then (hvs1, false)
    else
      var (vs, added) := AddVoteToSet(SetOf(hvs1, vote.kind, vote.round), voters, vote.voter, vote.id);
      (ReplaceSet(hvs1, vote.kind, vote.round, vs), added)
  }

  function ClaimMaj23(hvs: HeightVoteSet, kind: VoteType, round: int, peer: nat, id: BlockID): HeightVoteSet {
    if round !in hvs.sets then hvs
    else ReplaceSet(hvs, kind, round, SetPeerMaj23(SetOf(hvs, kind, round), peer, id))
  }

  /** The last tracked round with a prevote majority, or -1. */
  function POLRound(hvs: HeightVoteSet, from: int): (r: int)
    ensures -1 <= r && (r >= 0 ==> r <= from && Prevotes(hvs, r).maj23.Some?)
    ensures forall k | 0 <= k <= from && Prevotes(hvs, k).maj23.Some? :: k <= r
    decreases from + 1
  {
    if from < 0 then -1
    else if Prevotes(hvs, from).maj23.Some? then from
    else POLRound(hvs, from - 1)
  }

  ghost predicate HeightVoteSetOK(hvs: HeightVoteSet, voters: VoterSet) {
    forall kind, r: int :: VoteSetOK(SetOf(hvs, kind, r), voters)
  }

  ghost predicate HeightVoteSetFrom(hvs: HeightVoteSet, height: int, cast: set<Vote>) {
    forall kind, r: nat :: VoteSetFrom(SetOf(hvs, kind, r), kind, height, r, cast)
  }

  /** Majorities are never lost from `a` to `b`. */
  ghost predicate MajoritiesKept(a: HeightVoteSet, b: HeightVoteSet) {
    forall kind, r: int :: SetOf(a, kind, r).maj23.Some? ==> SetOf(b, kind, r).maj23 == SetOf(a, kind, r).maj23
  }

  lemma NewHeightVoteSetOK(voters: VoterSet, height: int, cast: set<Vote>)
    ensures HeightVoteSetOK(NewHeightVoteSet, voters)
    ensures HeightVoteSetFrom(NewHeightVoteSet, height, cast)
  {
    EmptyVoteSetOK(voters);
  }

  lemma ReplaceSetAt(hvs: HeightVoteSet, kind: VoteType, round: int, vs: VoteSet)
    requires round in hvs.sets
    ensures forall k, r: int ::
      SetOf(ReplaceSet(hvs, kind, round, vs), k, r) ==
      if k == kind && r == round then vs else SetOf(hvs, k, r)
  {
  }

  lemma SetRoundSame(hvs: HeightVoteSet, round: int)
    ensures forall kind, r: int :: SetOf(SetRound(hvs, round), kind, r) == SetOf(hvs, kind, r)
  {
  }

  lemma AddVoteOK(hvs: HeightVoteSet, voters: VoterSet, vote: Vote, peer: nat)
    requires Distinct(voters) && HeightVoteSetOK(hvs, voters)
    ensures var hvs' := AddVote(hvs, voters, vote, peer).0;
      && HeightVoteSetOK(hvs', voters)
      && MajoritiesKept(hvs, hvs')
      && hvs'.round == hvs.round && hvs.sets.Keys <= hvs'.sets.Keys
      && (AddVote(hvs, voters, vote, peer).1 ==> vote.round in hvs'.sets)
  {
    var hvs1 := TrackRound(hvs, vote.round, peer);
    assert forall kind, r: int :: SetOf(hvs1, kind, r) == SetOf(hvs, kind, r);
    if vote.round in hvs1.sets {
      var vs := SetOf(hvs1, vote.kind, vote.round);
      AddVoteToSetOK(vs, voters, vote.voter, vote.id);
      ReplaceSetAt(hvs1, vote.kind, vote.round, AddVoteToSet(vs, voters, vote.voter, vote.id).0);
    }
  }

  function CountedFor(vs: VoteSet, id: BlockID): set<nat> {
    if id in vs.byBlock then vs.byBlock[id].voters else {}
  }

  predicate Claimed(vs: VoteSet, id: BlockID) {
    id in vs.byBlock && vs.byBlock[id].peerMaj23
  }

  /** A vote counts if and only if it is a voter's first one, or one for a block somebody
      claimed a majority of that the voter neither counts for nor is listed with. A first
      vote is the one its voter is listed with. */
  lemma VoteTaken(vs: VoteSet, voters: VoterSet, voter: nat, id: BlockID)
    requires voter in CountedFor(vs, id) ==> voter in vs.votes
    ensures var (vs', added) := AddVoteToSet(vs, voters, voter, id);
      && (added <==>
            && HasAddress(voters, voter)
            && (voter in vs.votes ==> vs.votes[voter] != id && Claimed(vs, id) && voter !in CountedFor(vs, id)))
      && (HasAddress(voters, voter) && voter !in vs.votes ==> voter in vs'.votes && vs'.votes[voter] == id)
  {
    hide WeightAt, QuorumWeight, HasAddress;
  }

  /** It counts for its block and for nothing else, and claims nothing. */
  lemma VoteCounted(vs: VoteSet, voters: VoterSet, voter: nat, id: BlockID, other: BlockID)
    ensures var (vs', added) := AddVoteToSet(vs, voters, voter, id);
      && CountedFor(vs', other) == CountedFor(vs, other) + (if added && other == id then {voter} else {})
      && Claimed(vs', other) == Claimed(vs, other) && vs'.peerMaj23s == vs.peerMaj23s
  {
    hide WeightAt, QuorumWeight, HasAddress;
  }

  /** Every other voter stays listed as before, unless this vote makes the first majority:
      then all who count for its block are listed with it. */
  lemma OthersListed(vs: VoteSet, voters: VoterSet, voter: nat, id: BlockID, other: nat)
    requires other != voter
    ensures var vs' := AddVoteToSet(vs, voters, voter, id).0;
      if vs.maj23.None? && vs'.maj23.Some? && other in CountedFor(vs', id)
      then other in vs'.votes && vs'.votes[other] == id
      else (other in vs'.votes <==> other in vs.votes) && (other in vs.votes ==> vs'.votes[other] == vs.votes[other])
  {
    hide WeightAt, QuorumWeight, HasAddress;
  }

  /** What the tallies tell: +2/3 of any votes mean that two thirds of the weight have
      voted, and all votes that nobody of any weight is missing. */
  lemma TalliesMean(vs: VoteSet, voters: VoterSet)
    requires VoteSetOK(vs, voters)
    ensures HasTwoThirdsAny(vs, voters) <==> TwoThirds(voters, vs.votes.Keys)
    ensures HasAll(vs, voters) <==> forall v | v in voters && v.weight > 0 :: v.address in vs.votes
  {
    WeightOfAll(voters, vs.votes.Keys);
  }

  /** A vote of a round not tracked yet takes one of the two extra rounds of its peer. */
  predicate HasRoom(hvs: HeightVoteSet, round: nat, peer: nat) {
    round in hvs.sets || peer !in hvs.catchup || |hvs.catchup[peer]| < 2
  }

  /** A vote is added to the set of its own type and round, if there is room for it. */
  lemma VoteAdded(hvs: HeightVoteSet, voters: VoterSet, vote: Vote, peer: nat)
    ensures var (hvs', added) := AddVote(hvs, voters, vote, peer);
      if HasRoom(hvs, vote.round, peer) then
        && added == AddVoteToSet(SetOf(hvs, vote.kind, vote.round), voters, vote.voter, vote.id).1
        && (forall kind, r: int :: SetOf(hvs', kind, r) ==
              if kind == vote.kind && r == vote.round
              then AddVoteToSet(SetOf(hvs, kind, r), voters, vote.voter, vote.id).0 else SetOf(hvs, kind, r))
        && hvs'.sets.Keys == hvs.sets.Keys + {vote.round as int}
        && (vote.round !in hvs.sets ==>
              && hvs'.catchup.Keys == hvs.catchup.Keys + {peer}
              && |hvs'.catchup[peer]| == (if peer in hvs.catchup then |hvs.catchup[peer]| else 0) + 1)
      else hvs' == hvs && !added
  {
    hide AddVoteToSet;
    var hvs1 := TrackRound(hvs, vote.round, peer);
    assert forall kind, r: int :: SetOf(hvs1, kind, r) == SetOf(hvs, kind, r);
    if vote.round in hvs1.sets {
      var vs := SetOf(hvs1, vote.kind, vote.round);
      ReplaceSetAt(hvs1, vote.kind, vote.round, AddVoteToSet(vs, voters, vote.voter, vote.id).0);
    }
  }

  /** A peer's first claim for a tracked round is kept, and makes its block claimed. */
  lemma ClaimKept(hvs: HeightVoteSet, kind: VoteType, round: int, peer: nat, id: BlockID)
    ensures var hvs' := ClaimMaj23(hvs, kind, round, peer, id);
      if round in hvs.sets && peer !in SetOf(hvs, kind, round).peerMaj23s then
        && SetOf(hvs', kind, round).peerMaj23s == SetOf(hvs, kind, round).peerMaj23s[peer := id]
        && (forall b :: Claimed(SetOf(hvs', kind, round), b) <==> b == id || Claimed(SetOf(hvs, kind, round), b))
        && (forall b :: CountedFor(SetOf(hvs', kind, round), b) == CountedFor(SetOf(hvs, kind, round), b))
        && (forall k, r: int | k != kind || r != round :: SetOf(hvs', k, r) == SetOf(hvs, k, r))
      else forall k, r: int :: SetOf(hvs', k, r) == SetOf(hvs, k, r)
  {
    if round in hvs.sets {
      ReplaceSetAt(hvs, kind, round, SetPeerMaj23(SetOf(hvs, kind, round), peer, id));
    }
  }

  lemma AddVoteFrom(hvs: HeightVoteSet, voters: VoterSet, vote: Vote, peer: nat, height: int, cast: set<Vote>)
    requires Distinct(voters) && HeightVoteSetOK(hvs, voters)
    requires HeightVoteSetFrom(hvs, height, cast) && vote in cast && vote.height == height
    ensures HeightVoteSetFrom(AddVote(hvs, voters, vote, peer).0, height, cast)
  {
    var hvs1 := TrackRound(hvs, vote.round, peer);
    assert forall kind, r: int :: SetOf(hvs1, kind, r) == SetOf(hvs, kind, r);
    if vote.round in hvs1.sets {
      var vs := SetOf(hvs1, vote.kind, vote.round);
      AddVoteToSetOK(vs, voters, vote.voter, vote.id);
      ReplaceSetAt(hvs1, vote.kind, vote.round, AddVoteToSet(vs, voters, vote.voter, vote.id).0);
    }
  }

  lemma ClaimMaj23OK(hvs: HeightVoteSet, voters: VoterSet, kind: VoteType, round: int, peer: nat, id: BlockID)
    requires HeightVoteSetOK(hvs, voters)
    ensures var hvs' := ClaimMaj23(hvs, kind, round, peer, id);
      && HeightVoteSetOK(hvs', voters)
      && MajoritiesKept(hvs, hvs')
      && hvs'.round == hvs.round && hvs'.sets.Keys == hvs.sets.Keys
      && forall height, cast :: HeightVoteSetFrom(hvs, height, cast) ==> HeightVoteSetFrom(hvs', height, cast)
  {
    if round in hvs.sets {
      SetPeerMaj23OK(SetOf(hvs, kind, round), voters, peer, id);
      ReplaceSetAt(hvs, kind, round, SetPeerMaj23(SetOf(hvs, kind, round), peer, id));
    }
  }
}
