/** Nothing is voted for, locked or finalized unvalidated: over every run, a correct node
    that prevotes, precommits or finalizes a block has had ValidateBlock accept it before,
    at that height and in a round not later than that. */
module Validation {
  import opened Collections
  import opened Quorum
  import opened VoteSets
  import opened RoundStates
  import opened NodeInvariant
  import opened Agreement

  // ---------------------------------------------------------------------- one input

  /** ValidateBlock accepts the block in some round up to this one. */
  ghost predicate ValidBy(env: Env, round: int, block: int) {
    exists r :: r <= round && env.validBlock(r, block)
  }

  /** The block was locked at this height, up to this round. */
  predicate Held(s: RoundState, height: int, round: int, block: int) {
    s.height == height && s.lockedBlock == Some(block) && s.lockedRound <= round
  }

  /** A vote for a block is for one that was locked before, or has been validated now. */
  ghost predicate VoteBacked(s: RoundState, env: Env, v: Vote) {
    v.id.BlockID? ==>
      v.height == s.height && (Held(s, v.height, v.round, v.id.hash) || ValidBy(env, v.round, v.id.hash))
  }

  /** What a step adds to the votes, the lock and the finalized blocks is backed. */
  ghost predicate Backed(s: RoundState, s': RoundState, env: Env) {
    && s.signed <= s'.signed && s.decisions <= s'.decisions && s.height <= s'.height
    && (forall k | |s.signed| <= k < |s'.signed| :: VoteBacked(s, env, s'.signed[k].vote))
    && (s'.lockedBlock.Some? ==>
          && s'.height == s.height
          && (Held(s, s'.height, s'.lockedRound, s'.lockedBlock.value)
              || ValidBy(env, s'.lockedRound, s'.lockedBlock.value)))
    && (forall k | |s.decisions| <= k < |s'.decisions| :: DecisionBacked(s, env, s'.decisions[k], k))
  }

  ghost predicate DecisionBacked(s: RoundState, env: Env, d: Decision, k: nat) {
    k == |s.decisions| && d.id.BlockID? && env.validBlock(d.round, d.id.hash)
  }

  /** A step that only moves on. */
  predicate Silent(s: RoundState, s': RoundState) {
    && s'.signed == s.signed && s'.decisions == s.decisions && s'.height >= s.height
    && (s'.lockedBlock.Some? ==>
          s'.height == s.height && s'.lockedBlock == s.lockedBlock && s.lockedRound <= s'.lockedRound)
  }

  lemma SilentBacked(s: RoundState, s': RoundState, env: Env)
    requires Silent(s, s')
    ensures Backed(s, s', env)
  {
  }

  lemma ValidLater(env: Env, r: int, r': int, block: int)
    requires ValidBy(env, r, block) && r <= r'
    ensures ValidBy(env, r', block)
  {
    var q :| q <= r && env.validBlock(q, block);
    assert q <= r' && env.validBlock(q, block);
  }

  /** Two steps within a height, or a second one that only moves on. */
  lemma BackedTwice(a: RoundState, b: RoundState, c: RoundState, env: Env)
    requires Backed(a, b, env) && Backed(b, c, env)
    requires (b.height == a.height && b.decisions == a.decisions) || (Silent(b, c) && b.lockedBlock.None?)
    ensures Backed(a, c, env)
  {
    hide ValidBy;
    forall k | |a.signed| <= k < |c.signed| ensures VoteBacked(a, env, c.signed[k].vote) {
      var v := c.signed[k].vote;
      if k < |b.signed| {
        assert VoteBacked(a, env, b.signed[k].vote);
      } else {
        assert VoteBacked(b, env, v);
        if v.id.BlockID? && Held(b, v.height, v.round, v.id.hash) && !Held(a, v.height, v.round, v.id.hash) {
          ValidLater(env, b.lockedRound, v.round, v.id.hash);
        }
      }
    }
    if c.lockedBlock.Some? {
      var block := c.lockedBlock.value;
      if Held(b, c.height, c.lockedRound, block) && !Held(a, c.height, c.lockedRound, block) {
        ValidLater(env, b.lockedRound, c.lockedRound, block);
      }
    }
    forall k | |a.decisions| <= k < |c.decisions| ensures DecisionBacked(a, env, c.decisions[k], k) {
      if k < |b.decisions| {
        assert DecisionBacked(a, env, b.decisions[k], k);
      } else {
        assert DecisionBacked(b, env, c.decisions[k], k);
      }
    }
  }

  lemma EnterPrevoteBacked(s: RoundState, env: Env, height: int, round: nat)
    requires s.lockedRound <= s.round && round <= s.round
    ensures Backed(s, EnterPrevote(s, env, height, round), env)
    ensures var s' := EnterPrevote(s, env, height, round);
      s'.height == s.height && s'.decisions == s.decisions && s'.lockedRound == s.lockedRound && s'.round == s.round
  {
  }

  lemma EnterProposeBacked(s: RoundState, env: Env, height: int, round: nat)
    requires s.lockedRound <= s.round && round <= s.round
    ensures var s' := EnterPropose(s, env, height, round);
      Backed(s, s', env) && s'.height == s.height && s'.decisions == s.decisions && s'.round == s.round
      && (s.proposal.None? ==>
            s'.signed == s.signed && s'.lockedBlock == s.lockedBlock && s'.lockedRound == s.lockedRound)
  {
    hide EnterPrevote, Backed;
    var s1 := SetStep(Schedule(s, height, round, STEP_PROPOSE), round, STEP_PROPOSE);
    SilentBacked(s, s1, env);
    SilentBacked(s, s, env);
    if round == s.round {
      EnterPrevoteBacked(s1, env, height, s1.round);
      BackedTwice(s, s1, EnterPrevote(s1, env, height, s1.round), env);
    }
  }

  lemma EnterNewRoundBacked(s: RoundState, env: Env, height: int, round: nat)
    requires s.lockedRound <= s.round
    ensures var s' := EnterNewRound(s, env, height, round);
      Backed(s, s', env) && s'.height == s.height && s'.decisions == s.decisions && s'.lockedRound <= s'.round
      && (s.proposal.None? ==> Silent(s, s') && s'.lockedBlock == s.lockedBlock)
  {
    hide EnterPropose, Backed, SetRound;
    SilentBacked(s, s, env);
    SilentBacked(s, Fail(s, SetRoundBackwards), env);
    if s.failure.None? && s.height == height && round >= s.round {
      var s1 := StartRound(s, round);
      SilentBacked(s, s1, env);
      SilentBacked(s, Schedule(s1, height, round, STEP_NEW_ROUND), env);
      EnterProposeBacked(s1, env, height, round);
      BackedTwice(s, s1, EnterPropose(s1, env, height, round), env);
      ProposeLocks(s1, env, height, round);
    }
  }

  lemma ProposeLocks(s: RoundState, env: Env, height: int, round: nat)
    ensures EnterPropose(s, env, height, round).lockedRound == s.lockedRound
    ensures EnterPropose(s, env, height, round).lockedBlock == s.lockedBlock
  {
    hide PrevoteChoice;
  }

  lemma EnterPrecommitBacked(s: RoundState, env: Env, height: int, round: nat)
    requires s.lockedRound <= s.round && round <= s.round
    ensures var s' := EnterPrecommit(s, env, height, round);
      Backed(s, s', env) && s'.height == s.height && s'.decisions == s.decisions && s'.lockedRound <= s'.round
      && s'.proposal == s.proposal && s'.round == s.round
  {
    hide POLRound;
    if s.round == round && s.failure.None? && s.height == height && s.step < STEP_PRECOMMIT {
      var maj := Prevotes(s.votes, round).maj23;
      if maj.Some? && maj.value.BlockID? && env.validBlock(round, maj.value.hash) {
        assert ValidBy(env, round, maj.value.hash);
      }
    }
  }

  lemma WaitsBacked(s: RoundState, env: Env, height: int, round: nat)
    ensures Silent(s, EnterPrevoteWait(s, height, round)) && Silent(s, EnterPrecommitWait(s, height, round))
  {
  }

  lemma OnPolkaBacked(s: RoundState, round: nat, id: BlockID)
    ensures var s' := OnPolka(s, round, id);
      Silent(s, s') && s'.height == s.height && s'.round == s.round
      && (s'.lockedRound == s.lockedRound || s'.lockedRound == -1)
  {
  }

  lemma TryFinalizeBacked(s: RoundState, chain: Chain, env: Env, height: int)
    requires s.height < chain.initialHeight + |s.decisions| + 1
    ensures var s' := TryFinalizeCommit(s, chain, env, height);
      && Backed(s, s', env)
      && (s'.height > s.height || s'.decisions != s.decisions ==> s'.lockedBlock.None? && s'.proposal.None?)
      && (s'.lockedBlock.Some? ==> s'.lockedRound == s.lockedRound)
      && (s'.lockedRound == s.lockedRound || s'.lockedRound == -1) && (s'.round == s.round || s'.lockedRound == -1)
  {
  }

  lemma EnterCommitBacked(s: RoundState, chain: Chain, env: Env, height: int, commitRound: int)
    requires s.height < chain.initialHeight + |s.decisions| + 1 && s.lockedRound <= s.round
    ensures var s' := EnterCommit(s, chain, env, height, commitRound);
      && Backed(s, s', env)
      && (s'.height > s.height || s'.decisions != s.decisions ==> s'.lockedBlock.None? && s'.proposal.None?)
      && s'.lockedRound <= s'.round
  {
    hide TryFinalizeCommit;
    var maj := Precommits(s.votes, commitRound).maj23;
    if s.failure.None? && s.height == height && s.step < STEP_COMMIT && maj.Some? {
      var s1 := if HashesTo(s.lockedBlock, maj.value)
                then s.(proposalBlock := s.lockedBlock, proposalParts := Some(PartSet(s.lockedParts, true))) else s;
      var s2 := if HashesTo(s1.proposalBlock, maj.value) || HasHeader(s1.proposalParts, PartsOf(maj.value))
                then s1 else ExpectParts(s1.(proposalBlock := None), PartsOf(maj.value));
      var s3 := SetStep(s2, s2.round, STEP_COMMIT).(commitRound := commitRound);
      hide Backed;
      SilentBacked(s, s3, env);
      TryFinalizeBacked(s3, chain, env, height);
      BackedTwice(s, s3, TryFinalizeCommit(s3, chain, env, height), env);
    } else {
      SilentBacked(s, EnterCommit(s, chain, env, height, commitRound), env);
    }
  }

  lemma OnPrevoteBacked(s: RoundState, env: Env, round: nat)
    requires s.lockedRound <= s.round && s.failure.None?
    ensures Backed(s, OnPrevote(s, env, round), env)
  {
    hide OnPolka, EnterNewRound, EnterPrevote, EnterPrecommit, EnterPrevoteWait, Backed;
    var prevotes := Prevotes(s.votes, round);
    var s1 := if prevotes.maj23.Some? then OnPolka(s, round, prevotes.maj23.value) else s;
    if prevotes.maj23.Some? {
      OnPolkaBacked(s, round, prevotes.maj23.value);
    }
    SilentBacked(s, s1, env);
    EnterNewRoundBacked(s1, env, s1.height, round);
    BackedTwice(s, s1, EnterNewRound(s1, env, s1.height, round), env);
    WaitsBacked(s1, env, s1.height, round);
    SilentBacked(s1, EnterPrevoteWait(s1, s1.height, round), env);
    BackedTwice(s, s1, EnterPrevoteWait(s1, s1.height, round), env);
    EnterPrevoteBacked(s1, env, s1.height, s1.round);
    BackedTwice(s, s1, EnterPrevote(s1, env, s1.height, s1.round), env);
    if round <= s1.round {
      EnterPrecommitBacked(s1, env, s1.height, round);
      BackedTwice(s, s1, EnterPrecommit(s1, env, s1.height, round), env);
    }
  }

  lemma OnPrecommitBacked(s: RoundState, w: World, env: Env, round: nat)
    requires NodeOK(s, w) && s.failure.None?
    ensures Backed(s, OnPrecommit(s, w.chain, env, round), env)
  {
    hide NodeOK, EnterNewRound, EnterPrecommit, EnterCommit, EnterPrecommitWait, Backed, Silent;
    Position(s, w);
    var s1 := EnterNewRound(s, env, s.height, round);
    EnterNewRoundOK(s, w, env, s.height, round);
    EnterNewRoundBacked(s, env, s.height, round);
    WaitBacked(s, s1, env, s.height, round);
    EnterPrecommitBacked(s1, env, s.height, round);
    var s2 := EnterPrecommit(s1, env, s.height, round);
    BackedTwice(s, s1, s2, env);
    WaitBacked(s, s2, env, s.height, round);
    EnterCommitBacked(s2, w.chain, env, s.height, round);
    var s3 := EnterCommit(s2, w.chain, env, s.height, round);
    BackedTwice(s, s2, s3, env);
    EnterNewRoundBacked(s3, env, s3.height, 0);
    SilentBacked(s, s, env);
    BackedHeight(s2, s3, env);
    BackedTwice(s, s3, EnterNewRound(s3, env, s3.height, 0), env);
  }

  lemma BackedHeight(s: RoundState, s': RoundState, env: Env)
    requires Backed(s, s', env)
    ensures s.height <= s'.height
  {
  }

  lemma WaitBacked(a: RoundState, s: RoundState, env: Env, height: int, round: nat)
    requires Backed(a, s, env) && s.height == a.height && s.decisions == a.decisions
    ensures Backed(a, EnterPrecommitWait(s, height, round), env)
  {
    hide Backed, EnterPrecommitWait;
    WaitsBacked(s, env, height, round);
    SilentBacked(s, EnterPrecommitWait(s, height, round), env);
    BackedTwice(a, s, EnterPrecommitWait(s, height, round), env);
  }

  lemma Position(s: RoundState, w: World)
    requires NodeOK(s, w)
    ensures s.lockedRound <= s.round && s.height == w.chain.initialHeight + |s.decisions|
  {
  }

  lemma HandleVoteBacked(s: RoundState, w: World, env: Env, vote: Vote, peer: nat)
    requires ChainOK(w.chain) && NodeOK(s, w) && s.failure.None? && vote in w.cast
    ensures Backed(s, HandleVote(s, w.chain, env, vote, peer), env)
  {
    hide NodeOK, AddVote, OnPrevote, OnPrecommit, EnterNewRound, AddVoteToSet, Backed;
    Position(s, w);
    SilentBacked(s, s, env);
    if vote.height + 1 == s.height && vote.kind.Precommit? {
      SilentBacked(s, Fail(s, VoteForMissingLastCommit), env);
      if s.lastCommit.Some? {
        var lc := s.lastCommit.value;
        var s1 := s.(lastCommit := Some(lc.(votes := AddVoteToSet(lc.votes, lc.voters, vote.voter, vote.id).0)));
        SilentBacked(s, s1, env);
        EnterNewRoundBacked(s1, env, s1.height, 0);
        BackedTwice(s, s1, EnterNewRound(s1, env, s1.height, 0), env);
      }
    } else if vote.height == s.height {
      var votes := AddVote(s.votes, s.voters, vote, peer).0;
      var s1 := s.(votes := votes);
      VotersFacts(s, w);
      AddVoteOK(s.votes, s.voters, vote, peer);
      AddVoteFrom(s.votes, s.voters, vote, peer, s.height, w.cast);
      MoreVotesOK(s, w, votes);
      SilentBacked(s, s1, env);
      OnPrevoteBacked(s1, env, vote.round);
      OnPrecommitBacked(s1, w, env, vote.round);
      BackedTwice(s, s1, OnPrevote(s1, env, vote.round), env);
      BackedTwice(s, s1, OnPrecommit(s1, w.chain, env, vote.round), env);
    }
  }

  lemma HandleBlockPartBacked(s: RoundState, w: World, env: Env, height: int, complete: bool, block: Option<int>)
    requires NodeOK(s, w)
    ensures Backed(s, HandleBlockPart(s, w.chain, env, height, complete, block), env)
  {
    hide NodeOK, EnterPrevote, EnterPrecommit, TryFinalizeCommit, Backed;
    Position(s, w);
    SilentBacked(s, s, env);
    if s.height == height && s.proposalParts.Some? && !s.proposalParts.value.complete && complete {
      var s1 := s.(proposalParts := Some(s.proposalParts.value.(complete := true)));
      var s2 := if block.Some? then s1.(proposalBlock := block) else s1;
      var maj := Prevotes(s2.votes, s2.round).maj23;
      var s3 := if maj.Some? && maj.value.BlockID? && s2.validRound < s2.round && HashesTo(s2.proposalBlock, maj.value)
                then s2.(validRound := s2.round, validBlock := s2.proposalBlock) else s2;
      SilentBacked(s, s3, env);
      EnterPrevoteBacked(s3, env, height, s3.round);
      var s4 := EnterPrevote(s3, env, height, s3.round);
      BackedTwice(s, s3, s4, env);
      EnterPrecommitBacked(s4, env, height, s4.round);
      BackedTwice(s, s4, EnterPrecommit(s4, env, height, s4.round), env);
      TryFinalizeBacked(s3, w.chain, env, height);
      BackedTwice(s, s3, TryFinalizeCommit(s3, w.chain, env, height), env);
    }
  }

  lemma HandleTimeoutBacked(s: RoundState, w: World, env: Env, t: Timeout)
    requires NodeOK(s, w) && (t in s.timeouts || t.round == 0)
    ensures Backed(s, HandleTimeout(s, env, t), env)
  {
    hide NodeOK, EnterNewRound, EnterPropose, EnterPrevote, EnterPrecommit, Backed;
    Position(s, w);
    SilentBacked(s, s, env);
    if t.height == s.height && t.round >= s.round {
      TimeoutFacts(s, w, t);
      EnterNewRoundBacked(s, env, t.height, 0);
      EnterProposeBacked(s, env, t.height, 0);
      EnterPrevoteBacked(s, env, t.height, t.round);
      EnterPrecommitBacked(s, env, t.height, t.round);
      var s1 := EnterPrecommit(s, env, t.height, t.round);
      EnterNewRoundBacked(s1, env, t.height, t.round + 1);
      BackedTwice(s, s1, EnterNewRound(s1, env, t.height, t.round + 1), env);
    }
  }

  /** Whatever a node receives: it votes for, locks and finalizes only blocks it had locked
      before or that ValidateBlock accepts now. */
  lemma HandleBacked(s: RoundState, w: World, env: Env, input: Input)
    requires ChainOK(w.chain) && NodeOK(s, w) && Expected(s, w.cast, input)
    ensures Backed(s, Handle(s, w.chain, env, input), env)
  {
    hide NodeOK, HandleVote, HandleBlockPart, HandleTimeout, EnterPropose, ClaimMaj23, Backed;
    SilentBacked(s, s, env);
    if s.failure.None? {
      match input
      case VoteInput(vote, peer) => HandleVoteBacked(s, w, env, vote, peer);
      case ProposalInput(h, r, proposal) => SilentBacked(s, HandleProposal(s, h, r, proposal), env);
      case BlockPartInput(h, complete, block) => HandleBlockPartBacked(s, w, env, h, complete, block);
      case TimeoutInput(t) => HandleTimeoutBacked(s, w, env, t);
      case TxsAvailableInput(need) =>
        Position(s, w);
        SilentBacked(s, Schedule(s, s.height, 0, STEP_NEW_ROUND), env);
        EnterProposeBacked(s, env, s.height, 0);
      case Maj23Input(kind, r, peer, id) => SilentBacked(s, s.(votes := ClaimMaj23(s.votes, kind, r, peer, id)), env);
    }
  }

  // --------------------------------------------------------------------------- runs

  /** In step `j` the node at `p`, at height `h`, had ValidateBlock accept the block in
      round `r`. */
  ghost predicate ValidatedIn(states: seq<System>, actions: seq<Action>, j: int, p: nat, h: int, r: int, block: int) {
    && 0 <= j < |actions| < |states| && actions[j].Turn? && actions[j].node == p
    && p in states[j].nodes && states[j].nodes[p].height == h
    && actions[j].env.validBlock(r, block)
  }

  /** Before step `n` it had done so in a round up to `round`. */
  ghost predicate ValidatedBefore(states: seq<System>, actions: seq<Action>, n: int, p: nat, h: int, round: int,
                                  block: int) {
    exists j, r :: j < n && r <= round && ValidatedIn(states, actions, j, p, h, r, block)
  }

  ghost predicate NodeValidated(states: seq<System>, actions: seq<Action>, chain: Chain, n: nat, p: nat)
    requires n < |states| && p in states[n].nodes
  {
    var s := states[n].nodes[p];
    && (forall k | 0 <= k < |s.signed| && s.signed[k].vote.id.BlockID? ::
          var v := s.signed[k].vote;
          ValidatedBefore(states, actions, n, p, v.height, v.round, v.id.hash))
    && (s.lockedBlock.Some? ==>
          ValidatedBefore(states, actions, n, p, s.height, s.lockedRound, s.lockedBlock.value))
    && (forall k | 0 <= k < |s.decisions| && s.decisions[k].id.BlockID? ::
          var d := s.decisions[k];
          ValidatedBefore(states, actions, n, p, chain.initialHeight + k, d.round, d.id.hash))
  }

  lemma BeforeLater(states: seq<System>, actions: seq<Action>, n: int, n': int, p: nat, h: int, r: int, r': int,
                    block: int)
    requires ValidatedBefore(states, actions, n, p, h, r, block) && n <= n' && r <= r'
    ensures ValidatedBefore(states, actions, n', p, h, r', block)
  {
    var j, q :| j < n && q <= r && ValidatedIn(states, actions, j, p, h, q, block);
    assert j < n' && q <= r' && ValidatedIn(states, actions, j, p, h, q, block);
  }

  /** What ValidateBlock accepts in the step from `n` counts from then on. */
  lemma ValidatedNow(states: seq<System>, actions: seq<Action>, n: nat, p: nat, r: int, block: int)
    requires n < |actions| < |states| && actions[n].Turn? && actions[n].node == p && p in states[n].nodes
    requires ValidBy(actions[n].env, r, block)
    ensures ValidatedBefore(states, actions, n + 1, p, states[n].nodes[p].height, r, block)
  {
    var q :| q <= r && actions[n].env.validBlock(q, block);
    assert ValidatedIn(states, actions, n, p, states[n].nodes[p].height, q, block);
  }

  lemma BackedValidated(states: seq<System>, actions: seq<Action>, chain: Chain, n: nat, p: nat)
    requires n < |actions| < |states| && actions[n].Turn? && actions[n].node == p
    requires p in states[n].nodes && p in states[n + 1].nodes
    requires states[n].nodes[p].height == chain.initialHeight + |states[n].nodes[p].decisions|
    requires Backed(states[n].nodes[p], states[n + 1].nodes[p], actions[n].env)
    requires NodeValidated(states, actions, chain, n, p)
    ensures NodeValidated(states, actions, chain, n + 1, p)
  {
    hide ValidatedBefore, ValidBy;
    var s, s', env := states[n].nodes[p], states[n + 1].nodes[p], actions[n].env;
    forall k | 0 <= k < |s'.signed| && s'.signed[k].vote.id.BlockID?
      ensures var v := s'.signed[k].vote;
        ValidatedBefore(states, actions, n + 1, p, v.height, v.round, v.id.hash)
    {
      var v := s'.signed[k].vote;
      if k < |s.signed| {
        assert s'.signed[k] == s.signed[k];
        BeforeLater(states, actions, n, n + 1, p, v.height, v.round, v.round, v.id.hash);
      } else {
        assert VoteBacked(s, env, v);
        if Held(s, v.height, v.round, v.id.hash) {
          BeforeLater(states, actions, n, n + 1, p, v.height, s.lockedRound, v.round, v.id.hash);
        } else {
          ValidatedNow(states, actions, n, p, v.round, v.id.hash);
        }
      }
    }
    if s'.lockedBlock.Some? {
      var block := s'.lockedBlock.value;
      if Held(s, s'.height, s'.lockedRound, block) {
        BeforeLater(states, actions, n, n + 1, p, s.height, s.lockedRound, s'.lockedRound, block);
      } else {
        ValidatedNow(states, actions, n, p, s'.lockedRound, block);
      }
    }
    forall k | 0 <= k < |s'.decisions| && s'.decisions[k].id.BlockID?
      ensures var d := s'.decisions[k];
        ValidatedBefore(states, actions, n + 1, p, chain.initialHeight + k, d.round, d.id.hash)
    {
      var d := s'.decisions[k];
      if k < |s.decisions| {
        assert s'.decisions[k] == s.decisions[k];
        BeforeLater(states, actions, n, n + 1, p, chain.initialHeight + k, d.round, d.round, d.id.hash);
      } else {
        assert DecisionBacked(s, env, d, k);
        AcceptedNow(env, d.round, d.id.hash);
        ValidatedNow(states, actions, n, p, d.round, d.id.hash);
      }
    }
  }

  lemma TurnValidated(states: seq<System>, actions: seq<Action>, chain: Chain, n: nat, p: nat)
    requires ChainOK(chain) && Run(states, actions, chain) && n < |actions| && SystemOK(states[n], chain)
    requires actions[n].Turn? && actions[n].node == p && p in states[n].nodes && p in states[n + 1].nodes
    requires NodeValidated(states, actions, chain, n, p)
    ensures NodeValidated(states, actions, chain, n + 1, p)
  {
    hide NodeOK, Handle, NodeValidated, Backed, ChainOK;
    assert Next(states[n], chain, actions[n], states[n + 1]);
    var s := states[n].nodes[p];
    HandleBacked(s, WorldOf(s, chain, states[n].log), actions[n].env, actions[n].input);
    Position(s, WorldOf(s, chain, states[n].log));
    BackedValidated(states, actions, chain, n, p);
  }

  lemma AcceptedNow(env: Env, r: int, block: int)
    requires env.validBlock(r, block)
    ensures ValidBy(env, r, block)
  {
  }

  lemma OthersValidated(states: seq<System>, actions: seq<Action>, chain: Chain, n: nat, p: nat)
    requires n + 1 < |states| && p in states[n].nodes && p in states[n + 1].nodes
    requires states[n + 1].nodes[p] == states[n].nodes[p]
    requires NodeValidated(states, actions, chain, n, p)
    ensures NodeValidated(states, actions, chain, n + 1, p)
  {
    hide ValidatedBefore;
    var s := states[n].nodes[p];
    forall k | 0 <= k < |s.signed| && s.signed[k].vote.id.BlockID?
      ensures var v := s.signed[k].vote;
        ValidatedBefore(states, actions, n + 1, p, v.height, v.round, v.id.hash)
    {
      var v := s.signed[k].vote;
      BeforeLater(states, actions, n, n + 1, p, v.height, v.round, v.round, v.id.hash);
    }
    if s.lockedBlock.Some? {
      BeforeLater(states, actions, n, n + 1, p, s.height, s.lockedRound, s.lockedRound, s.lockedBlock.value);
    }
    forall k | 0 <= k < |s.decisions| && s.decisions[k].id.BlockID?
      ensures var d := s.decisions[k];
        ValidatedBefore(states, actions, n + 1, p, chain.initialHeight + k, d.round, d.id.hash)
    {
      var d := s.decisions[k];
      BeforeLater(states, actions, n, n + 1, p, chain.initialHeight + k, d.round, d.round, d.id.hash);
    }
  }

  /** At every point of every run, all a correct node has signed for, locked or finalized it
      had validated before. */
  lemma {:induction false} AllValidated(states: seq<System>, actions: seq<Action>, chain: Chain, n: nat, p: nat)
    requires ChainOK(chain) && Run(states, actions, chain) && n < |states| && p in states[n].nodes
    ensures NodeValidated(states, actions, chain, n, p)
  {
    hide ChainOK, NodeValidated, SystemOK, Start, Init;
    if n == 0 {
      StartValidated(states, actions, chain, p);
    } else {
      RunOK(states, actions, chain, n - 1);
      assert Next(states[n - 1], chain, actions[n - 1], states[n]);
      AllValidated(states, actions, chain, n - 1, p);
      if actions[n - 1].Turn? && actions[n - 1].node == p {
        TurnValidated(states, actions, chain, n - 1, p);
      } else {
        OthersValidated(states, actions, chain, n - 1, p);
      }
    }
  }

  lemma StartValidated(states: seq<System>, actions: seq<Action>, chain: Chain, p: nat)
    requires |states| > 0 && Start(states[0], chain) && p in states[0].nodes
    ensures NodeValidated(states, actions, chain, 0, p)
  {
  }

  /** Every vote of a correct node for a block that is out in the log, prevote or precommit,
      is for a block the node had validated by then, at that height and not in a later
      round. */
  lemma OnlyValidated(states: seq<System>, actions: seq<Action>, chain: Chain, n: nat, i: nat)
    requires ChainOK(chain) && Run(states, actions, chain) && n < |states| && i < |states[n].log|
    requires states[n].log[i].voter in states[n].nodes && states[n].log[i].id.BlockID?
    ensures var v := states[n].log[i];
      ValidatedBefore(states, actions, n, v.voter, v.height, v.round, v.id.hash)
  {
    hide ChainOK, Run, ValidatedBefore, NodeOK, HeightVoteSetFrom;
    RunOK(states, actions, chain, n);
    var v := states[n].log[i];
    AllValidated(states, actions, chain, n, v.voter);
    assert LoggedOK(states[n], i);
    var k :| SignedAt(states[n].nodes[v.voter], v, k, states[n].log[..i]);
  }
}
