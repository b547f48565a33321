/** Any number of nodes exchanging votes: messages may be delayed, lost, repeated and
    reordered, and voters that run no correct node may cast any votes. The theorem is
    that correct nodes finalize the same blocks. */
module Agreement {
  import opened Collections
  import opened Quorum
  import opened VoteSets
  import opened RoundStates
  import opened NodeInvariant

  /** The correct nodes by address, and every signed vote ever released, in order. */
  datatype System = System(nodes: map<nat, RoundState>, log: seq<Vote>)

  datatype Action =
    /** A node handles an input; the signer releases some of the votes it asked for. */
    | Turn(node: nat, env: Env, input: Input, released: seq<Vote>)
    /** An address without a correct node casts a vote. */
    | Byzantine(vote: Vote)

  function Cast(log: seq<Vote>): set<Vote> {
    set v | v in log
  }

  ghost predicate Start(sys: System, chain: Chain) {
    && sys.log == []
    && forall p | p in sys.nodes :: sys.nodes[p] == Init(chain, p)
  }

  ghost predicate Asked(before: RoundState, after: RoundState, v: Vote) {
    exists k :: |before.signed| <= k < |after.signed| && after.signed[k].vote == v
  }

  ghost predicate Next(sys: System, chain: Chain, action: Action, sys': System) {
    match action
    case Turn(p, env, input, released) =>
      && p in sys.nodes && Expected(sys.nodes[p], Cast(sys.log), input)
      && var s' := Handle(sys.nodes[p], chain, env, input);
      && (forall v | v in released :: Asked(sys.nodes[p], s', v))
      && sys' == System(sys.nodes[p := s'], sys.log + released)
    case Byzantine(vote) =>
      vote.voter !in sys.nodes && sys' == sys.(log := sys.log + [vote])
  }

  ghost predicate Run(states: seq<System>, actions: seq<Action>, chain: Chain) {
    && |states| == |actions| + 1
    && Start(states[0], chain)
    && forall i | 0 <= i < |actions| :: Next(states[i], chain, actions[i], states[i + 1])
  }

  // ------------------------------------------------------------------ the invariant

  ghost function WorldOf(s: RoundState, chain: Chain, log: seq<Vote>): World {
    World(chain, Cast(log), |s.signed|, 0)
  }

  /** A logged vote of a correct node is one it asked for, on votes logged before. */
  ghost predicate LoggedOK(sys: System, i: nat)
    requires i < |sys.log| && sys.log[i].voter in sys.nodes
  {
    exists k :: SignedAt(sys.nodes[sys.log[i].voter], sys.log[i], k, sys.log[..i])
  }

  ghost predicate SignedAt(s: RoundState, v: Vote, k: int, log: seq<Vote>) {
    && 0 <= k < |s.signed| && s.signed[k].vote == v
    && HeightVoteSetFrom(s.signed[k].votes, v.height, Cast(log))
  }

  ghost predicate SystemOK(sys: System, chain: Chain) {
    && (forall p | p in sys.nodes ::
          sys.nodes[p].self == p && NodeOK(sys.nodes[p], WorldOf(sys.nodes[p], chain, sys.log)))
    && (forall i | 0 <= i < |sys.log| && sys.log[i].voter in sys.nodes :: LoggedOK(sys, i))
  }

  lemma MoreCast(hvs: HeightVoteSet, height: int, a: set<Vote>, b: set<Vote>)
    requires HeightVoteSetFrom(hvs, height, a) && a <= b
    ensures HeightVoteSetFrom(hvs, height, b)
  {
    forall kind, r: nat ensures VoteSetFrom(SetOf(hvs, kind, r), kind, height, r, b) {
      assert VoteSetFrom(SetOf(hvs, kind, r), kind, height, r, a);
    }
  }

  lemma WiderWorld(s: RoundState, w: World, w': World)
    requires NodeOK(s, w) && w.chain == w'.chain && w.cast <= w'.cast
    requires w.signedFrom <= w'.signedFrom && w.decidedFrom <= w'.decidedFrom
    ensures NodeOK(s, w')
  {
    MoreCast(s.votes, s.height, w.cast, w'.cast);
    forall k | w'.signedFrom <= k < |s.signed|
      ensures HeightVoteSetFrom(s.signed[k].votes, s.signed[k].vote.height, w'.cast)
    {
      MoreCast(s.signed[k].votes, s.signed[k].vote.height, w.cast, w'.cast);
    }
    forall k | w'.decidedFrom <= k < |s.decisions|
      ensures HeightVoteSetFrom(s.decisions[k].votes, w'.chain.initialHeight + k, w'.cast)
    {
      MoreCast(s.decisions[k].votes, w'.chain.initialHeight + k, w.cast, w'.cast);
    }
  }

  lemma StartOK(sys: System, chain: Chain)
    requires ChainOK(chain) && Start(sys, chain)
    ensures SystemOK(sys, chain)
  {
    forall p | p in sys.nodes
      ensures NodeOK(sys.nodes[p], WorldOf(sys.nodes[p], chain, sys.log))
    {
      InitOK(WorldOf(sys.nodes[p], chain, sys.log), p);
    }
  }

  /** Logged votes keep their justification when the log and the history grow. */
  lemma LoggedStays(sys: System, sys': System, i: nat)
    requires i < |sys.log| && sys.log <= sys'.log
    requires sys.log[i].voter in sys.nodes && sys.log[i].voter in sys'.nodes
    requires sys.nodes[sys.log[i].voter].signed <= sys'.nodes[sys.log[i].voter].signed
    requires LoggedOK(sys, i)
    ensures LoggedOK(sys', i)
  {
    var v := sys.log[i];
    var k :| SignedAt(sys.nodes[v.voter], v, k, sys.log[..i]);
    assert sys'.log[..i] == sys.log[..i];
    assert SignedAt(sys'.nodes[v.voter], v, k, sys'.log[..i]);
  }

  /** A vote released now rests on votes that were logged before. */
  lemma ReleasedOK(sys: System, chain: Chain, a: Action, sys': System, i: nat)
    requires a.Turn? && a.node in sys.nodes && sys.nodes[a.node].self == a.node && Next(sys, chain, a, sys')
    requires |sys.log| <= i < |sys'.log| && Follows(sys.nodes[a.node], sys'.nodes[a.node])
    requires NodeOK(sys'.nodes[a.node], WorldOf(sys.nodes[a.node], chain, sys.log))
    ensures sys'.log[i].voter == a.node && LoggedOK(sys', i)
  {
    hide NodeOK, Handle, SystemOK;
    var s, s' := sys.nodes[a.node], sys'.nodes[a.node];
    var v := sys'.log[i];
    assert v == a.released[i - |sys.log|];
    assert Asked(s, s', v);
    var k :| |s.signed| <= k < |s'.signed| && s'.signed[k].vote == v;
    NodeSigned(s', WorldOf(s, chain, sys.log), k);
    assert sys'.log[..i] == sys.log + sys'.log[|sys.log|..i];
    MoreCast(s'.signed[k].votes, v.height, Cast(sys.log), Cast(sys'.log[..i]));
    assert SignedAt(s', v, k, sys'.log[..i]);
  }

  lemma NodeSigned(s: RoundState, w: World, k: nat)
    requires NodeOK(s, w) && k < |s.signed|
    ensures s.signed[k].vote.voter == s.self
    ensures w.signedFrom <= k ==> HeightVoteSetFrom(s.signed[k].votes, s.signed[k].vote.height, w.cast)
  {
    assert CastBy(s.signed[k].vote, s);
  }

  lemma TurnOK(sys: System, chain: Chain, a: Action, sys': System)
    requires ChainOK(chain) && SystemOK(sys, chain) && a.Turn? && Next(sys, chain, a, sys')
    ensures SystemOK(sys', chain)
  {
    hide NodeOK, Handle;
    var s, s' := sys.nodes[a.node], sys'.nodes[a.node];
    HandleOK(s, WorldOf(s, chain, sys.log), a.env, a.input);
    forall p | p in sys'.nodes
      ensures sys'.nodes[p].self == p && NodeOK(sys'.nodes[p], WorldOf(sys'.nodes[p], chain, sys'.log))
    {
      if p == a.node {
        WiderWorld(s', WorldOf(s, chain, sys.log), WorldOf(s', chain, sys'.log));
      } else {
        WiderWorld(sys.nodes[p], WorldOf(sys.nodes[p], chain, sys.log), WorldOf(sys.nodes[p], chain, sys'.log));
      }
    }
    forall i | 0 <= i < |sys'.log| && sys'.log[i].voter in sys'.nodes ensures LoggedOK(sys', i) {
      if i < |sys.log| {
        assert sys'.log[i] == sys.log[i];
        LoggedStays(sys, sys', i);
      } else {
        ReleasedOK(sys, chain, a, sys', i);
      }
    }
  }

  lemma ByzantineOK(sys: System, chain: Chain, a: Action, sys': System)
    requires SystemOK(sys, chain) && a.Byzantine? && Next(sys, chain, a, sys')
    ensures SystemOK(sys', chain)
  {
    hide NodeOK;
    forall p | p in sys'.nodes
      ensures NodeOK(sys'.nodes[p], WorldOf(sys'.nodes[p], chain, sys'.log))
    {
      WiderWorld(sys.nodes[p], WorldOf(sys.nodes[p], chain, sys.log), WorldOf(sys.nodes[p], chain, sys'.log));
    }
    forall i | 0 <= i < |sys'.log| && sys'.log[i].voter in sys'.nodes ensures LoggedOK(sys', i) {
      assert sys'.log[i] == sys.log[i];
      LoggedStays(sys, sys', i);
    }
  }

  /** The invariant holds at every point of every run. */
  lemma {:induction false} RunOK(states: seq<System>, actions: seq<Action>, chain: Chain, n: nat)
    requires ChainOK(chain) && Run(states, actions, chain) && n < |states|
    ensures SystemOK(states[n], chain) && states[n].nodes.Keys == states[0].nodes.Keys
  {
    hide SystemOK;
    if n == 0 {
      StartOK(states[0], chain);
    } else {
      RunOK(states, actions, chain, n - 1);
      assert Next(states[n - 1], chain, actions[n - 1], states[n]);
      if actions[n - 1].Turn? {
        TurnOK(states[n - 1], chain, actions[n - 1], states[n]);
      } else {
        ByzantineOK(states[n - 1], chain, actions[n - 1], states[n]);
      }
    }
  }

  /** At every point of every run, whatever the faulty do: a node is locked exactly when
      it has a locked round; locked and valid rounds are not above the current round and
      had +2/3 prevotes for the locked or valid block; no timeout is scheduled beyond the
      current round; in the commit step some round has +2/3 precommits for a block; and no
      panic that guards a quorum assumption has fired. */
  lemma ReachableNode(states: seq<System>, actions: seq<Action>, chain: Chain, n: nat, p: nat)
    requires ChainOK(chain) && Run(states, actions, chain) && n < |states| && p in states[n].nodes
    ensures var s := states[n].nodes[p];
      && s.height == chain.initialHeight + |s.decisions|
      && (s.lockedBlock.Some? <==> s.lockedRound >= 0) && s.lockedRound <= s.round
      && (s.lockedRound >= 0 ==> PolkaFor(s.votes, s.lockedRound, s.lockedBlock))
      && (s.validBlock.Some? <==> s.validRound >= 0) && s.validRound <= s.round
      && (s.validRound >= 0 ==> PolkaFor(s.votes, s.validRound, s.validBlock))
      && (forall t | t in s.timeouts && t.height == s.height :: t.round <= s.round)
      && (s.step == STEP_COMMIT ==>
            s.commitRound >= 0 && Precommits(s.votes, s.commitRound).maj23.Some?
            && Precommits(s.votes, s.commitRound).maj23.value.BlockID?)
      && FailureOK(s)
  {
    hide Run;
    RunOK(states, actions, chain, n);
  }

  /** Height, round and step never go back, and signed votes and finalized blocks are
      never taken back, between any two points of a run. */
  lemma {:induction false} NeverGoesBack(states: seq<System>, actions: seq<Action>, chain: Chain,
                                         i: nat, j: nat, p: nat)
    requires ChainOK(chain) && Run(states, actions, chain) && i <= j < |states| && p in states[0].nodes
    ensures p in states[i].nodes && p in states[j].nodes && Follows(states[i].nodes[p], states[j].nodes[p])
    decreases j
  {
    hide SystemOK, Next, ChainOK, Start;
    RunOK(states, actions, chain, i);
    RunOK(states, actions, chain, j);
    if i < j {
      NeverGoesBack(states, actions, chain, i, j - 1, p);
      RunOK(states, actions, chain, j - 1);
      StepFollows(states[j - 1], chain, actions[j - 1], states[j], p);
    }
  }

  lemma StepFollows(sys: System, chain: Chain, a: Action, sys': System, p: nat)
    requires ChainOK(chain) && SystemOK(sys, chain) && Next(sys, chain, a, sys') && p in sys.nodes
    ensures p in sys'.nodes && Follows(sys.nodes[p], sys'.nodes[p])
  {
    hide NodeOK, Handle;
    if a.Turn? && a.node == p {
      HandleOK(sys.nodes[p], WorldOf(sys.nodes[p], chain, sys.log), a.env, a.input);
    }
  }

  // ------------------------------------------------------------- one height, one set

  /** All voters of `q` have a vote for `id` in the log. */
  ghost predicate VotedFor(log: seq<Vote>, kind: VoteType, h: int, r: nat, id: BlockID, q: set<nat>) {
    forall a | a in q :: Vote(kind, h, r, id, a) in log
  }

  ghost predicate Quorate(log: seq<Vote>, voters: VoterSet, kind: VoteType, h: int, r: nat, id: BlockID, q: set<nat>) {
    TwoThirds(voters, q) && VotedFor(log, kind, h, r, id, q)
  }

  /** Addresses that run no correct node weigh less than a third. */
  ghost predicate FewFaulty(voters: VoterSet, correct: set<nat>) {
    forall f: set<nat> | f !! correct :: LessThanThird(voters, f)
  }

  /** Every correct node that reached height `h` takes its votes from `voters`. */
  ghost predicate SameVoters(sys: System, chain: Chain, h: int, voters: VoterSet) {
    forall p | p in sys.nodes && 0 <= h - chain.initialHeight <= |sys.nodes[p].decisions| ::
      VotersAt(sys.nodes[p].decisions, chain, h) == voters
  }

  /** A recorded majority is a quorum of logged votes. */
  lemma MajorityInLog(hvs: HeightVoteSet, voters: VoterSet, log: seq<Vote>, kind: VoteType, h: int, r: nat)
    returns (q: set<nat>)
    requires HeightVoteSetOK(hvs, voters) && HeightVoteSetFrom(hvs, h, Cast(log)) && SetOf(hvs, kind, r).maj23.Some?
    ensures Quorate(log, voters, kind, h, r, SetOf(hvs, kind, r).maj23.value, q)
  {
    var vs := SetOf(hvs, kind, r);
    assert VoteSetOK(vs, voters) && VoteSetFrom(vs, kind, h, r, Cast(log));
    q := vs.byBlock[vs.maj23.value].voters;
    forall a | a in q ensures Vote(kind, h, r, vs.maj23.value, a) in log {
      assert Vote(kind, h, r, vs.maj23.value, a) in Cast(log);
    }
  }

  /** Two quorums share a correct node. */
  lemma CommonCorrect(voters: VoterSet, correct: set<nat>, q1: set<nat>, q2: set<nat>) returns (a: nat)
    requires FewFaulty(voters, correct) && TwoThirds(voters, q1) && TwoThirds(voters, q2)
    ensures a in q1 && a in q2 && a in correct
  {
    var f := (q1 + q2) - correct;
    assert f !! correct;
    a := QuorumsIntersect(voters, q1, q2, f);
  }

  /** A correct node's logged vote, found in its history. */
  lemma FindSigned(sys: System, chain: Chain, v: Vote, n: nat) returns (i: nat, k: nat)
    requires SystemOK(sys, chain) && n <= |sys.log| && v in sys.log[..n] && v.voter in sys.nodes
    ensures i < n && k < |sys.nodes[v.voter].signed|
    ensures SignedAt(sys.nodes[v.voter], v, k, sys.log[..i])
  {
    hide NodeOK;
    i :| 0 <= i < n && sys.log[i] == v;
    assert LoggedOK(sys, i);
    k :| SignedAt(sys.nodes[v.voter], v, k, sys.log[..i]);
  }

  lemma SignedFacts(s: RoundState, w: World, k: nat)
    requires NodeOK(s, w) && k < |s.signed|
    ensures Justified(s.signed, k) && RequestOK(s.signed[k], s.decisions, w.chain)
    ensures forall j | 0 <= j < |s.signed| && j != k ::
      VoteLess(s.signed[j].vote, s.signed[k].vote) || VoteLess(s.signed[k].vote, s.signed[j].vote)
    ensures forall j | 0 <= j < |s.signed| && VoteLess(s.signed[j].vote, s.signed[k].vote) :: j < k
  {
  }

  /** A correct node never has two votes of one type in one round. */
  lemma NoEquivocation(sys: System, chain: Chain, v1: Vote, v2: Vote)
    requires SystemOK(sys, chain) && v1 in sys.log && v2 in sys.log
    requires v1.voter == v2.voter && v1.voter in sys.nodes
    requires v1.kind == v2.kind && v1.height == v2.height && v1.round == v2.round
    ensures v1 == v2
  {
    hide NodeOK;
    assert sys.log[..|sys.log|] == sys.log;
    var _, k1 := FindSigned(sys, chain, v1, |sys.log|);
    var _, k2 := FindSigned(sys, chain, v2, |sys.log|);
    var s := sys.nodes[v1.voter];
    SignedFacts(s, WorldOf(s, chain, sys.log), k2);
  }

  /** After +2/3 precommits for `b` in round `r`, no later round has a polka for anything
      else. Such a polka would need a prevote of a correct precommitter, which needs a
      polka still earlier in the log. */
  lemma {:induction false} NoOtherPolka(sys: System, chain: Chain, voters: VoterSet, h: int, r: nat,
                                        b: BlockID, q: set<nat>,
                                        n: nat, r': nat, id: BlockID, q': set<nat>)
    requires SystemOK(sys, chain) && SameVoters(sys, chain, h, voters) && FewFaulty(voters, sys.nodes.Keys)
    requires b.BlockID? && Quorate(sys.log, voters, Precommit, h, r, b, q)
    requires n <= |sys.log| && r < r' && Quorate(sys.log[..n], voters, Prevote, h, r', id, q')
    ensures HashesTo(Some(b.hash), id)
    decreases n
  {
    hide NodeOK;
    if !HashesTo(Some(b.hash), id) {
      var a := CommonCorrect(voters, sys.nodes.Keys, q, q');
      var pc, pv := Vote(Precommit, h, r, b, a), Vote(Prevote, h, r', id, a);
      assert pc in sys.log && pv in sys.log[..n];
      assert sys.log[..|sys.log|] == sys.log;
      var _, j := FindSigned(sys, chain, pc, |sys.log|);
      var i, k := FindSigned(sys, chain, pv, n);
      var s := sys.nodes[a];
      SignedFacts(s, WorldOf(s, chain, sys.log), k);
      assert VoteLess(s.signed[j].vote, s.signed[k].vote);
      assert PolkaNotBetween(s.signed[k].votes, b.hash, r, r');
      var r2: nat :| r < r2 <= r' && PolkaNot(s.signed[k].votes, r2, b.hash);
      assert SetOf(s.signed[k].votes, Prevote, r2) == Prevotes(s.signed[k].votes, r2);
      var q2 := MajorityInLog(s.signed[k].votes, voters, sys.log[..i], Prevote, h, r2);
      NoOtherPolka(sys, chain, voters, h, r, b, q, i, r2, Prevotes(s.signed[k].votes, r2).maj23.value, q2);
    }
  }

  /** Two blocks with +2/3 precommits at one height have the same hash. */
  lemma OneBlockPerHeight(sys: System, chain: Chain, voters: VoterSet, h: int,
                          r1: nat, b1: BlockID, q1: set<nat>, r2: nat, b2: BlockID, q2: set<nat>)
    requires SystemOK(sys, chain) && SameVoters(sys, chain, h, voters) && FewFaulty(voters, sys.nodes.Keys)
    requires b1.BlockID? && Quorate(sys.log, voters, Precommit, h, r1, b1, q1)
    requires b2.BlockID? && Quorate(sys.log, voters, Precommit, h, r2, b2, q2)
    requires r1 <= r2
    ensures b1.hash == b2.hash
  {
    hide NodeOK;
    var a := CommonCorrect(voters, sys.nodes.Keys, q1, q2);
    var v2 := Vote(Precommit, h, r2, b2, a);
    if r1 == r2 {
      NoEquivocation(sys, chain, Vote(Precommit, h, r1, b1, a), v2);
    } else {
      assert sys.log[..|sys.log|] == sys.log;
      var i, k := FindSigned(sys, chain, v2, |sys.log|);
      var s := sys.nodes[a];
      SignedFacts(s, WorldOf(s, chain, sys.log), k);
      assert SetOf(s.signed[k].votes, Prevote, r2) == Prevotes(s.signed[k].votes, r2);
      var q := MajorityInLog(s.signed[k].votes, voters, sys.log[..i], Prevote, h, r2);
      NoOtherPolka(sys, chain, voters, h, r1, b1, q1, i, r2, b2, q);
    }
  }

  // ---------------------------------------------------------------------- all heights

  /** Faulty addresses weigh less than a third in every voter set a correct node used. */
  ghost predicate FaultBound(sys: System, chain: Chain) {
    forall p, n | p in sys.nodes && 0 <= n <= |sys.nodes[p].decisions| ::
      FewFaulty(chain.votersAfter(Hashes(sys.nodes[p].decisions[..n])), sys.nodes.Keys)
  }

  lemma DecisionInLog(sys: System, chain: Chain, p: nat, n: nat) returns (q: set<nat>)
    requires SystemOK(sys, chain) && p in sys.nodes && n < |sys.nodes[p].decisions|
    ensures var d := sys.nodes[p].decisions[n];
      && d.id.BlockID? && d.round >= 0
      && Quorate(sys.log, VotersAt(sys.nodes[p].decisions, chain, chain.initialHeight + n), Precommit,
                 chain.initialHeight + n, d.round, d.id, q)
  {
    var s := sys.nodes[p];
    var d := s.decisions[n];
    assert DecisionOK(s.decisions, chain, n);
    assert SetOf(d.votes, Precommit, d.round) == Precommits(d.votes, d.round);
    q := MajorityInLog(d.votes, VotersAt(s.decisions, chain, chain.initialHeight + n), sys.log, Precommit,
                       chain.initialHeight + n, d.round);
  }

  /** Correct nodes agree on the first `n` blocks as far as they have finalized them. */
  lemma {:induction false} SamePrefix(sys: System, chain: Chain, n: nat)
    requires SystemOK(sys, chain) && FaultBound(sys, chain)
    ensures forall p, q | p in sys.nodes && q in sys.nodes
                          && n <= |sys.nodes[p].decisions| && n <= |sys.nodes[q].decisions| ::
      Hashes(sys.nodes[p].decisions[..n]) == Hashes(sys.nodes[q].decisions[..n])
  {
    hide NodeOK;
    if n > 0 {
      var m := n - 1;
      SamePrefix(sys, chain, m);
      forall p, q | p in sys.nodes && q in sys.nodes
                    && n <= |sys.nodes[p].decisions| && n <= |sys.nodes[q].decisions|
        ensures Hashes(sys.nodes[p].decisions[..n]) == Hashes(sys.nodes[q].decisions[..n])
      {
        var dp, dq := sys.nodes[p].decisions, sys.nodes[q].decisions;
        var h := chain.initialHeight + m;
        var voters := VotersAt(dp, chain, h);
        assert FewFaulty(voters, sys.nodes.Keys);
        var qp := DecisionInLog(sys, chain, p, m);
        var qq := DecisionInLog(sys, chain, q, m);
        if dp[m].round <= dq[m].round {
          OneBlockPerHeight(sys, chain, voters, h, dp[m].round, dp[m].id, qp, dq[m].round, dq[m].id, qq);
        } else {
          OneBlockPerHeight(sys, chain, voters, h, dq[m].round, dq[m].id, qq, dp[m].round, dp[m].id, qp);
        }
        HashesSnoc(dp, m);
        HashesSnoc(dq, m);
      }
    }
  }

  lemma HashesSnoc(ds: seq<Decision>, m: nat)
    requires m < |ds| && ds[m].id.BlockID?
    ensures Hashes(ds[..m + 1]) == Hashes(ds[..m]) + [ds[m].id.hash]
  {
  }

  lemma SameBlock(sys: System, chain: Chain, p: nat, q: nat, k: nat)
    requires SystemOK(sys, chain) && FaultBound(sys, chain) && p in sys.nodes && q in sys.nodes
    requires k < |sys.nodes[p].decisions| && k < |sys.nodes[q].decisions|
    ensures sys.nodes[p].decisions[k].id.BlockID? && sys.nodes[q].decisions[k].id.BlockID?
    ensures sys.nodes[p].decisions[k].id.hash == sys.nodes[q].decisions[k].id.hash
  {
    hide SystemOK;
    SamePrefix(sys, chain, k + 1);
    var dp, dq := sys.nodes[p].decisions, sys.nodes[q].decisions;
    var _ := DecisionInLog(sys, chain, p, k);
    var _ := DecisionInLog(sys, chain, q, k);
    HashesSnoc(dp, k);
    HashesSnoc(dq, k);
    assert Hashes(dp[..k + 1])[k] == Hashes(dq[..k + 1])[k];
  }

  /** Agreement: at every point of every run in which faulty addresses weigh less than a
      third, two correct nodes that both finalized height `h` finalized the same block. */
  lemma AgreementTheorem(states: seq<System>, actions: seq<Action>, chain: Chain, n: nat, p: nat, q: nat, k: nat)
    requires ChainOK(chain) && Run(states, actions, chain) && n < |states|
    requires FaultBound(states[n], chain)
    requires p in states[n].nodes && q in states[n].nodes
    requires k < |states[n].nodes[p].decisions| && k < |states[n].nodes[q].decisions|
    ensures states[n].nodes[p].decisions[k].id.BlockID? && states[n].nodes[q].decisions[k].id.BlockID?
    ensures states[n].nodes[p].decisions[k].id.hash == states[n].nodes[q].decisions[k].id.hash
  {
    hide SystemOK, Run;
    RunOK(states, actions, chain, n);
    SameBlock(states[n], chain, p, q, k);
  }
}
