/** Building runs with restarts one step at a time. */
module Runs {
  import opened Collections
  import opened Quorum
  import opened VoteSets
  import opened RoundStates
  import opened NodeInvariant
  import opened Replays
  import opened Starts
  import opened Restarts
  import A = Agreement

  /** A vote as an input, from its voter. */
  function By(voter: nat, kind: VoteType, h: int, r: nat, id: BlockID): Input {
    VoteInput(Vote(kind, h, r, id, voter), voter)
  }

  /** A proposal that names no earlier round. */
  function Prop(h: int, r: nat, id: BlockID): Input
    requires id.BlockID?
  {
    ProposalInput(h, r, Proposal(-1, id.parts))
  }

  /** The last part of a block. */
  function Part(h: int, id: BlockID): Input
    requires id.BlockID?
  {
    BlockPartInput(h, true, Some(id.hash))
  }

  // ---------------------------------------------------------------------- systems at hand

  function Of(sys: System, chain: Chain, p: nat): Node {
    if p in sys.nodes then sys.nodes[p] else First(chain, p)
  }

  function At(sys: System, chain: Chain, p: nat): RoundState {
    Now(chain, Of(sys, chain, p))
  }

  /** The node is sound, and was when its height began. */
  ghost predicate Fine(chain: Chain, p: nat, node: Node, log: seq<Vote>) {
    && node.entry.self == p && NodeOK(node.entry, Everything(chain, log))
    && Now(chain, node).self == p && NodeOK(Now(chain, node), Everything(chain, log))
  }

  /** A reachable system of these correct nodes. */
  ghost predicate Good(sys: System, chain: Chain, correct: set<nat>) {
    && Reachable(sys, chain) && sys.nodes.Keys == correct
    && forall p | p in sys.nodes :: Fine(chain, p, sys.nodes[p], sys.log)
  }

  lemma GoodFacts(sys: System, chain: Chain, correct: set<nat>, p: nat)
    requires Good(sys, chain, correct) && p in correct
    ensures p in sys.nodes && Of(sys, chain, p) == sys.nodes[p] && At(sys, chain, p) == Now(chain, sys.nodes[p])
    ensures At(sys, chain, p).self == p && NodeOK(At(sys, chain, p), Everything(chain, sys.log))
    ensures Of(sys, chain, p).entry.self == p && NodeOK(Of(sys, chain, p).entry, Everything(chain, sys.log))
  {
    hide NodeOK, Now, Reachable;
  }

  lemma FineLater(chain: Chain, p: nat, node: Node, log: seq<Vote>, log': seq<Vote>)
    requires Fine(chain, p, node, log) && log <= log'
    ensures Fine(chain, p, node, log')
  {
    hide NodeOK, Now;
    A.WiderWorld(node.entry, Everything(chain, log), Everything(chain, log'));
    A.WiderWorld(Now(chain, node), Everything(chain, log), Everything(chain, log'));
  }

  lemma FirstRests(chain: Chain, p: nat)
    ensures AtRest(Init(chain, p), chain)
  {
    assert Hashes([]) == [];
  }

  lemma FirstFine(chain: Chain, p: nat)
    requires ChainOK(chain)
    ensures Fine(chain, p, First(chain, p), [])
  {
    hide NodeOK, ChainOK;
    InitOK(Everything(chain, []), p);
    Unturned(chain, First(chain, p));
  }

  /** The beginning of all runs. */
  lemma Begins(chain: Chain, correct: set<nat>) returns (sys: System)
    requires ChainOK(chain)
    ensures Good(sys, chain, correct) && sys.log == []
    ensures forall p | p in correct :: Of(sys, chain, p) == First(chain, p)
    ensures forall p | p in correct :: At(sys, chain, p) == Init(chain, p)
  {
    hide NodeOK, Reachable, ChainOK, Run, Fine, Init;
    sys := System(map p | p in correct :: First(chain, p), []);
    StartReachable(sys, chain);
    forall p | p in sys.nodes ensures Fine(chain, p, sys.nodes[p], sys.log) {
      FirstFine(chain, p);
    }
  }

  // -------------------------------------------------------------------------- one step

  lemma HandledNow(chain: Chain, node: Node, turn: Turn, flushed: bool)
    ensures Now(chain, Handled(chain, node, turn, flushed)) == Handle(Now(chain, node), chain, turn.env, turn.input)
  {
    hide Handle;
    AfterPrefix(chain, node.entry, node.turns, node.turns + [turn], |node.turns|);
  }

  lemma HandledFine(chain: Chain, p: nat, node: Node, turn: Turn, log: seq<Vote>)
    requires ChainOK(chain) && Fine(chain, p, node, log) && Expected(Now(chain, node), A.Cast(log), turn.input)
    ensures Fine(chain, p, Handled(chain, node, turn, true), log)
  {
    hide Handle, NodeOK, ChainOK, Now;
    HandledNow(chain, node, turn, true);
    HandleOK(Now(chain, node), Everything(chain, log), turn.env, turn.input);
  }

  ghost predicate AllAsked(s: RoundState, s': RoundState, released: seq<Vote>) {
    forall v | v in released :: A.Asked(s, s', v)
  }

  lemma AskedLast(s: RoundState, s': RoundState, v: Vote)
    requires |s'.signed| > |s.signed| && s'.signed[|s'.signed| - 1].vote == v
    ensures AllAsked(s, s', [v])
  {
    assert A.Asked(s, s', v);
  }

  /** A node handles an input, flushes its log, and its signer releases some votes. */
  lemma Do(sys: System, chain: Chain, correct: set<nat>, p: nat, env: Env, input: Input, released: seq<Vote>)
    returns (sys': System)
    requires ChainOK(chain) && Good(sys, chain, correct) && p in correct
    requires Expected(At(sys, chain, p), A.Cast(sys.log), input)
    requires AllAsked(At(sys, chain, p), Handle(At(sys, chain, p), chain, env, input), released)
    ensures Good(sys', chain, correct) && sys'.log == sys.log + released
    ensures Of(sys', chain, p) == Handled(chain, Of(sys, chain, p), Turn(env, input), true)
    ensures At(sys', chain, p) == Handle(At(sys, chain, p), chain, env, input)
    ensures forall q | q != p :: Of(sys', chain, q) == Of(sys, chain, q) && At(sys', chain, q) == At(sys, chain, q)
  {
    hide Handle, NodeOK, Reachable, ChainOK, Now, A.Asked, Handled, Fine;
    var turn := Turn(env, input);
    var node' := Handled(chain, sys.nodes[p], turn, true);
    sys' := System(sys.nodes[p := node'], sys.log + released);
    assert Next(sys, chain, Handles(p, turn, true, released), sys');
    NextReachable(sys, chain, Handles(p, turn, true, released), sys');
    HandledNow(chain, sys.nodes[p], turn, true);
    HandledFine(chain, p, sys.nodes[p], turn, sys.log);
    forall q | q in sys'.nodes ensures Fine(chain, q, sys'.nodes[q], sys'.log) {
      FineLater(chain, q, sys'.nodes[q], sys.log, sys'.log);
    }
  }

  /** Somebody faulty casts a vote. */
  lemma Cheat(sys: System, chain: Chain, correct: set<nat>, vote: Vote) returns (sys': System)
    requires Good(sys, chain, correct) && vote.voter !in correct
    ensures Good(sys', chain, correct) && sys.log <= sys'.log && vote in sys'.log
    ensures forall q :: Of(sys', chain, q) == Of(sys, chain, q) && At(sys', chain, q) == At(sys, chain, q)
  {
    hide Fine, Reachable, Now;
    sys' := sys.(log := sys.log + [vote]);
    NextReachable(sys, chain, Byzantine(vote), sys');
    forall q | q in sys'.nodes ensures Fine(chain, q, sys'.nodes[q], sys'.log) {
      FineLater(chain, q, sys'.nodes[q], sys.log, sys'.log);
    }
  }

  // ------------------------------------------------------------------------- one height

  /** The same life at the same height, with everything flushed. */
  ghost predicate SameLife(a: Node, b: Node) {
    b.entry == a.entry && b.ended == a.ended && b.synced == |b.turns|
  }

  lemma HandledStays(chain: Chain, node: Node, turn: Turn)
    requires Handle(Now(chain, node), chain, turn.env, turn.input).decisions == Now(chain, node).decisions
    ensures SameLife(node, Handled(chain, node, turn, true))
    ensures Handled(chain, node, turn, true).turns == node.turns + [turn]
  {
    hide Handle, Now;
  }

  /** Only this node has moved on, in one life. */
  ghost predicate MovedOn(sys: System, sys': System, chain: Chain, p: nat) {
    && sys.log <= sys'.log && SameLife(Of(sys, chain, p), Of(sys', chain, p))
    && forall q | q != p :: Of(sys', chain, q) == Of(sys, chain, q) && At(sys', chain, q) == At(sys, chain, q)
  }

  lemma MovedTwice(a: System, b: System, c: System, chain: Chain, p: nat)
    requires MovedOn(a, b, chain, p) && MovedOn(b, c, chain, p)
    ensures MovedOn(a, c, chain, p)
  {
    hide Of, At;
  }

  /** A turn that finalizes nothing. */
  lemma DoPlain(sys: System, chain: Chain, correct: set<nat>, p: nat, env: Env, input: Input, released: seq<Vote>)
    returns (sys': System)
    requires ChainOK(chain) && Good(sys, chain, correct) && p in correct
    requires Expected(At(sys, chain, p), A.Cast(sys.log), input)
    requires var s' := Handle(At(sys, chain, p), chain, env, input);
      AllAsked(At(sys, chain, p), s', released) && s'.decisions == At(sys, chain, p).decisions
    ensures Good(sys', chain, correct) && sys'.log == sys.log + released && MovedOn(sys, sys', chain, p)
    ensures At(sys', chain, p) == Handle(At(sys, chain, p), chain, env, input)
    ensures Of(sys', chain, p).turns == Of(sys, chain, p).turns + [Turn(env, input)]
  {
    hide Handle, Now, Good, Handled, Of, ChainOK, AllAsked;
    HandledStays(chain, Of(sys, chain, p), Turn(env, input));
    sys' := Do(sys, chain, correct, p, env, input, released);
  }

  /** Inputs that may come and finalize nothing. */
  ghost predicate Uneventful(chain: Chain, s: RoundState, turns: seq<Turn>, log: seq<Vote>) {
    forall n | 0 <= n < |turns| ::
      && Expected(After(chain, s, turns, n), A.Cast(log), turns[n].input)
      && After(chain, s, turns, n).decisions == After(chain, s, turns, n + 1).decisions
  }

  lemma UneventfulLast(chain: Chain, s: RoundState, turns: seq<Turn>, log: seq<Vote>)
    requires turns != [] && Uneventful(chain, s, turns, log)
    ensures var n := |turns| - 1;
      var s1 := After(chain, s, turns[..n], n);
      && Uneventful(chain, s, turns[..n], log) && Expected(s1, A.Cast(log), turns[n].input)
      && After(chain, s, turns, n + 1) == Handle(s1, chain, turns[n].env, turns[n].input)
      && s1.decisions == After(chain, s, turns, n + 1).decisions
  {
    hide Handle, Expected;
    var n := |turns| - 1;
    forall k | 0 <= k <= n ensures After(chain, s, turns[..n], k) == After(chain, s, turns, k) {
      AfterPrefix(chain, s, turns[..n], turns, k);
    }
  }

  /** Several such turns, without a vote released. */
  lemma {:induction false} DoAll(sys: System, chain: Chain, correct: set<nat>, p: nat, turns: seq<Turn>)
    returns (sys': System)
    requires ChainOK(chain) && Good(sys, chain, correct) && p in correct
    requires Of(sys, chain, p).synced == |Of(sys, chain, p).turns|
    requires Uneventful(chain, At(sys, chain, p), turns, sys.log)
    ensures Good(sys', chain, correct) && sys'.log == sys.log && MovedOn(sys, sys', chain, p)
    ensures At(sys', chain, p) == After(chain, At(sys, chain, p), turns, |turns|)
    ensures Of(sys', chain, p).turns == Of(sys, chain, p).turns + turns
    decreases |turns|
  {
    hide Handle, Now, Good, Of, At, ChainOK, Expected, Uneventful;
    if turns == [] {
      sys' := sys;
    } else {
      var n := |turns| - 1;
      UneventfulLast(chain, At(sys, chain, p), turns, sys.log);
      var sys1 := DoAll(sys, chain, correct, p, turns[..n]);
      hide After;
      sys' := DoPlain(sys1, chain, correct, p, turns[n].env, turns[n].input, []);
      assert turns[..n] + [turns[n]] == turns;
      assert Of(sys', chain, p).turns == Of(sys, chain, p).turns + turns[..n] + [Turn(turns[n].env, turns[n].input)];
    }
  }

  lemma HandledEnds(chain: Chain, node: Node, turn: Turn)
    requires Handle(Now(chain, node), chain, turn.env, turn.input).decisions != Now(chain, node).decisions
    ensures Handled(chain, node, turn, true)
         == Node(Handle(Now(chain, node), chain, turn.env, turn.input), [], 0, node.ended + {Now(chain, node).height})
  {
    hide Handle, Now;
  }

  /** A turn that finalizes a block: the node begins the next height and has marked the end
      of this one. */
  lemma DoEnds(sys: System, chain: Chain, correct: set<nat>, p: nat, env: Env, input: Input) returns (sys': System)
    requires ChainOK(chain) && Good(sys, chain, correct) && p in correct
    requires Expected(At(sys, chain, p), A.Cast(sys.log), input)
    requires Handle(At(sys, chain, p), chain, env, input).decisions != At(sys, chain, p).decisions
    ensures Good(sys', chain, correct) && sys'.log == sys.log
    ensures At(sys', chain, p) == Handle(At(sys, chain, p), chain, env, input)
    ensures Of(sys', chain, p)
         == Node(At(sys', chain, p), [], 0, Of(sys, chain, p).ended + {At(sys, chain, p).height})
    ensures forall q | q != p :: Of(sys', chain, q) == Of(sys, chain, q) && At(sys', chain, q) == At(sys, chain, q)
  {
    hide Handle, Now, Good, Handled, Of, ChainOK;
    HandledEnds(chain, Of(sys, chain, p), Turn(env, input));
    sys' := Do(sys, chain, correct, p, env, input, []);
  }

  // ------------------------------------------------------------------------- new starts

  lemma NextAhead(sys: System, chain: Chain, p: nat, d: Decision, marked: bool)
    requires p in sys.nodes && sys.nodes[p].synced == |sys.nodes[p].turns|
    requires Committed(Now(chain, sys.nodes[p]), d, A.Cast(sys.log))
    ensures var node := sys.nodes[p];
      Next(sys, chain, StartsAhead(p, |node.turns|, d, marked),
           System(sys.nodes[p := StartedAhead(chain, node, |node.turns|, d, marked)], sys.log))
  {
    hide Committed, After, Fresh;
  }

  lemma NextAgain(sys: System, chain: Chain, p: nat)
    requires p in sys.nodes && sys.nodes[p].synced == |sys.nodes[p].turns|
    ensures var node := sys.nodes[p];
      Next(sys, chain, Restarts(p, |node.turns|, []),
           System(sys.nodes[p := Restarted(chain, node, |node.turns|)], sys.log))
  {
    hide After, Fresh, Written;
    assert sys.log + [] == sys.log;
  }

  /** A node starts again. */
  lemma StartsAgain(sys: System, chain: Chain, correct: set<nat>, p: nat, a: Action, node: Node) returns (sys': System)
    requires Good(sys, chain, correct) && p in correct && Fine(chain, p, node, sys.log)
    requires Next(sys, chain, a, System(sys.nodes[p := node], sys.log))
    ensures Good(sys', chain, correct) && sys'.log == sys.log && Of(sys', chain, p) == node
    ensures forall q | q != p :: Of(sys', chain, q) == Of(sys, chain, q) && At(sys', chain, q) == At(sys, chain, q)
  {
    hide Reachable, Next, Fine, Now;
    sys' := System(sys.nodes[p := node], sys.log);
    NextReachable(sys, chain, a, sys');
  }

  lemma FineAtRest(chain: Chain, p: nat, node: Node, log: seq<Vote>)
    requires node.turns == [] && node.entry.self == p && NodeOK(node.entry, Everything(chain, log))
    ensures Fine(chain, p, node, log) && Now(chain, node) == node.entry
  {
    hide NodeOK;
    Unturned(chain, node);
  }

  lemma OwnCommitted(s: RoundState, d: Decision, w: World)
    requires NodeOK(s, w) && d.votes == s.votes && d.id.BlockID? && d.round >= 0
    requires Precommits(d.votes, d.round).maj23 == Some(d.id)
    ensures Committed(s, d, w.cast)
  {
  }

  /** A node dies after it has stored a block, before it marks the end of its height. */
  lemma DiesStoring(sys: System, chain: Chain, correct: set<nat>, p: nat, d: Decision) returns (sys': System)
    requires ChainOK(chain) && Good(sys, chain, correct) && p in correct
    requires Of(sys, chain, p).synced == |Of(sys, chain, p).turns| && d.votes == At(sys, chain, p).votes
    requires d.id.BlockID? && d.round >= 0 && Precommits(d.votes, d.round).maj23 == Some(d.id)
    ensures Good(sys', chain, correct) && sys'.log == sys.log
    ensures forall q | q != p :: Of(sys', chain, q) == Of(sys, chain, q) && At(sys', chain, q) == At(sys, chain, q)
    ensures Of(sys', chain, p).ended == Of(sys, chain, p).ended && Of(sys', chain, p).turns == []
    ensures At(sys', chain, p) == Of(sys', chain, p).entry == Fresh(WithBlock(At(sys, chain, p), d), chain)
  {
    hide NodeOK, Good, Fresh, Committed, Fine, After, WithBlock, Next, ChainOK;
    GoodFacts(sys, chain, correct, p);
    var node, s := Of(sys, chain, p), At(sys, chain, p);
    OwnCommitted(s, d, Everything(chain, sys.log));
    AheadOK(s, Everything(chain, sys.log), d);
    var node' := StartedAhead(chain, node, |node.turns|, d, false);
    FineAtRest(chain, p, node', sys.log);
    NextAhead(sys, chain, p, d, false);
    sys' := StartsAgain(sys, chain, correct, p, StartsAhead(p, |node.turns|, d, false), node');
  }

  /** A node dies and starts at the same height without finding its marker. */
  lemma DiesUnmarked(sys: System, chain: Chain, correct: set<nat>, p: nat) returns (sys': System)
    requires ChainOK(chain) && Good(sys, chain, correct) && p in correct
    requires Of(sys, chain, p).synced == |Of(sys, chain, p).turns| && !Marked(Of(sys, chain, p))
    requires AtRest(Of(sys, chain, p).entry, chain)
    ensures Good(sys', chain, correct) && sys'.log == sys.log
    ensures forall q | q != p :: Of(sys', chain, q) == Of(sys, chain, q) && At(sys', chain, q) == At(sys, chain, q)
    ensures At(sys', chain, p) == Fresh(Of(sys, chain, p).entry, chain)
  {
    hide NodeOK, AtRest, Good, Fresh, Fine, ChainOK, Next, After;
    GoodFacts(sys, chain, correct, p);
    var node := Of(sys, chain, p);
    FreshOK(node.entry, Everything(chain, sys.log));
    var node' := Restarted(chain, node, |node.turns|);
    FineAtRest(chain, p, node', sys.log);
    NextAgain(sys, chain, p);
    sys' := StartsAgain(sys, chain, correct, p, Restarts(p, |node.turns|, []), node');
  }

  /** What a start keeps. */
  lemma FreshHas(s: RoundState, chain: Chain)
    ensures var f := Fresh(s, chain);
      && AtRest(f, chain) && f.self == s.self && |f.decisions| == |s.decisions| && |f.signed| == |s.signed|
      && (forall k | 0 <= k < |s.decisions| :: f.decisions[k].id == s.decisions[k].id)
  {
    hide AtRest, BareVotes, Beginning;
    FreshRests(s, chain);
    BeginningHas(s, chain);
  }

  lemma BeginningHas(s: RoundState, chain: Chain)
    ensures var b := Beginning(s, chain);
      b.decisions == s.decisions && b.signed == s.signed && b.self == s.self
  {
  }
}
