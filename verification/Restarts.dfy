/** Agreement with nodes that die and start again. A node writes most inputs it handles to
    its log, flushes the log before it signs a vote, and marks in it the end of each height
    whose block it has stored. A new start begins at the height after the stored blocks and
    replays what the log has since the end of the height below, if that end is marked.
    Agreement survives in all runs in which nothing that matters is lost this way. */
module Restarts {
  import opened Collections
  import opened Quorum
  import opened VoteSets
  import opened RoundStates
  import opened NodeInvariant
  import opened Replays
  import opened Starts
  import A = Agreement

  datatype Turn = Turn(env: Env, input: Input)

  /** A node: its state when the present height began for it, the inputs handled since, how
      many of them are flushed, and the heights whose end is marked in its log. */
  datatype Node = Node(entry: RoundState, turns: seq<Turn>, synced: nat, ended: set<int>)

  datatype System = System(nodes: map<nat, Node>, log: seq<Vote>)

  datatype Action =
    /** A turn whose ApplyBlock fails, or that the process does not outlive after it has
        stored a block, finalizes nothing yet. */
    | Handles(node: nat, turn: Turn, flushed: bool, released: seq<Vote>)
    /** The process dies and starts again at the same height with the first `kept` inputs;
        the signer is asked again and may release what it had not. */
    | Restarts(node: nat, kept: nat, released: seq<Vote>)
    /** It dies and finds the block of its height in the store: one it had stored, with or
        without the end marked, or one it has fetched from others. */
    | StartsAhead(node: nat, kept: nat, block: Decision, marked: bool)
    | Byzantine(vote: Vote)

  function Written(turns: seq<Turn>): seq<Turn> {
    if turns == [] then []
    else
      var before := Written(turns[..|turns| - 1]);
      if IsWritten(turns[|turns| - 1].input) then before + [turns[|turns| - 1]] else before
  }

  /** A state after the first `n` inputs. */
  function After(chain: Chain, s: RoundState, turns: seq<Turn>, n: nat): RoundState
    requires n <= |turns|
  {
    if n == 0 then s
    else Handle(After(chain, s, turns, n - 1), chain, turns[n - 1].env, turns[n - 1].input)
  }

  function Now(chain: Chain, node: Node): RoundState {
    After(chain, node.entry, node.turns, |node.turns|)
  }

  /** The node without the inputs that are not flushed. */
  function Flushed(chain: Chain, node: Node): RoundState {
    After(chain, node.entry, node.turns, if node.synced <= |node.turns| then node.synced else 0)
  }

  /** The marker that catchupReplay looks for: a new log begins with that of height 0. */
  function MarkerBelow(s: RoundState): int {
    if s.decisions == [] then 0 else s.height - 1
  }

  predicate Marked(node: Node) {
    MarkerBelow(node.entry) in node.ended
  }

  function First(chain: Chain, p: nat): Node {
    Node(Init(chain, p), [], 0, {0})
  }

  function Handled(chain: Chain, node: Node, turn: Turn, flushed: bool): Node {
    var s := Now(chain, node);
    var s' := Handle(s, chain, turn.env, turn.input);
    if s'.decisions != s.decisions then Node(s', [], 0, node.ended + {s.height})
    else node.(turns := node.turns + [turn], synced := if flushed then |node.turns| + 1 else node.synced)
  }

  /** OnStart: without the marker nothing is replayed, and the node starts anyway. */
  function Restarted(chain: Chain, node: Node, kept: nat): Node
    requires kept <= |node.turns|
  {
    var turns := if Marked(node) then Written(node.turns[..kept]) else [];
    Node(Fresh(node.entry, chain), turns, |turns|, node.ended)
  }

  function StartedAhead(chain: Chain, node: Node, kept: nat, d: Decision, marked: bool): Node
    requires kept <= |node.turns|
  {
    var s := After(chain, node.entry, node.turns, kept);
    Node(Fresh(WithBlock(s, d), chain), [], 0, if marked then node.ended + {s.height} else node.ended)
  }

  ghost predicate Start(sys: System, chain: Chain) {
    sys.log == [] && forall p | p in sys.nodes :: sys.nodes[p] == First(chain, p)
  }

  ghost predicate Next(sys: System, chain: Chain, action: Action, sys': System) {
    match action
    case Handles(p, turn, flushed, released) =>
      && p in sys.nodes
      && var node := sys.nodes[p];
      var s := Now(chain, node);
      && Expected(s, A.Cast(sys.log), turn.input) && (released != [] ==> flushed)
      && (forall v | v in released :: A.Asked(s, Handle(s, chain, turn.env, turn.input), v))
      && sys' == System(sys.nodes[p := Handled(chain, node, turn, flushed)], sys.log + released)
    case Restarts(p, kept, released) =>
      && p in sys.nodes && sys.nodes[p].synced <= kept <= |sys.nodes[p].turns|
      && var node' := Restarted(chain, sys.nodes[p], kept);
      && (forall v | v in released :: A.Asked(node'.entry, Now(chain, node'), v))
      && sys' == System(sys.nodes[p := node'], sys.log + released)
    case StartsAhead(p, kept, d, marked) =>
      && p in sys.nodes && sys.nodes[p].synced <= kept <= |sys.nodes[p].turns|
      && var node := sys.nodes[p];
      && Committed(After(chain, node.entry, node.turns, kept), d, A.Cast(sys.log))
      && sys' == sys.(nodes := sys.nodes[p := StartedAhead(chain, node, kept, d, marked)])
    case Byzantine(vote) =>
      vote.voter !in sys.nodes && sys' == sys.(log := sys.log + [vote])
  }

  ghost predicate Run(states: seq<System>, actions: seq<Action>, chain: Chain) {
    && |states| == |actions| + 1
    && Start(states[0], chain)
    && forall i | 0 <= i < |actions| :: Next(states[i], chain, actions[i], states[i + 1])
  }

  /** Some run leads there. */
  ghost predicate Reachable(sys: System, chain: Chain) {
    exists states, actions :: Run(states, actions, chain) && states[|actions|] == sys
  }

  lemma StartReachable(sys: System, chain: Chain)
    requires Start(sys, chain)
    ensures Reachable(sys, chain)
  {
    var states, actions: seq<Action> := [sys], [];
    assert Run(states, actions, chain) && states[|actions|] == sys;
  }

  lemma NextReachable(sys: System, chain: Chain, a: Action, sys': System)
    requires Reachable(sys, chain) && Next(sys, chain, a, sys')
    ensures Reachable(sys', chain)
  {
    hide Next, Start;
    var states, actions :| Run(states, actions, chain) && states[|actions|] == sys;
    var states', actions' := states + [sys'], actions + [a];
    assert Run(states', actions', chain) && states'[|actions'|] == sys';
  }

  /** A node starts with the marker it will look for. */
  lemma BeginsMarked(chain: Chain, p: nat)
    ensures Marked(First(chain, p))
  {
  }

  /** A death may lose an input that is not flushed. */
  lemma LosesUnflushed(sys: System, chain: Chain, p: nat, turn: Turn) returns (sys1: System, sys2: System)
    requires p in sys.nodes && sys.nodes[p].synced <= |sys.nodes[p].turns|
    requires var s := Now(chain, sys.nodes[p]);
      Expected(s, A.Cast(sys.log), turn.input) && Handle(s, chain, turn.env, turn.input).decisions == s.decisions
    ensures Next(sys, chain, Handles(p, turn, false, []), sys1)
    ensures Next(sys1, chain, Action.Restarts(p, |sys.nodes[p].turns|, []), sys2)
    ensures sys2.nodes[p] == Restarted(chain, sys.nodes[p], |sys.nodes[p].turns|)
  {
    hide Handle, After, Fresh, Written, Expected;
    var node := sys.nodes[p];
    sys1 := System(sys.nodes[p := Handled(chain, node, turn, false)], sys.log + []);
    sys2 := System(sys1.nodes[p := Restarted(chain, sys1.nodes[p], |node.turns|)], sys1.log + []);
    assert sys1.nodes[p].turns[..|node.turns|] == node.turns[..|node.turns|];
  }

  /** It never loses one that is. */
  lemma KeepsFlushed(sys: System, chain: Chain, p: nat, turn: Turn, released: seq<Vote>, sys1: System, kept: nat,
                     again: seq<Vote>, sys2: System)
    requires Next(sys, chain, Handles(p, turn, true, released), sys1)
    requires Next(sys1, chain, Action.Restarts(p, kept, again), sys2)
    requires var s := Now(chain, sys.nodes[p]); Handle(s, chain, turn.env, turn.input).decisions == s.decisions
    ensures sys1.nodes[p].turns == sys.nodes[p].turns + [turn] && kept == |sys.nodes[p].turns| + 1
  {
    hide Handle, After, Fresh, Written, Marked, Expected;
  }

  // ----------------------------------------------------------------- what does no harm

  /** The input is not lost on a replay, and it does not cut short the wait between two
      heights, of which a replay knows nothing. */
  predicate Harmless(s: RoundState, chain: Chain, turn: Turn) {
    && !LostOnReplay(s, turn.input) && !CutsWait(s, turn.env, turn.input)
    && (Handle(s, chain, turn.env, turn.input).decisions != s.decisions ==> !SkipsWait(s, turn.env, turn.input))
  }

  /** A start without the marker is no loss if the height has seen no request for a vote. */
  predicate HarmlessStart(chain: Chain, node: Node) {
    Marked(node) || Flushed(chain, node).signed == node.entry.signed
  }

  predicate HarmlessAction(sys: System, chain: Chain, a: Action) {
    && (a.Handles? && a.node in sys.nodes ==> Harmless(Now(chain, sys.nodes[a.node]), chain, a.turn))
    && (a.Restarts? && a.node in sys.nodes ==> HarmlessStart(chain, sys.nodes[a.node]))
  }

  ghost predicate AllHarmless(states: seq<System>, actions: seq<Action>, chain: Chain)
    requires |states| == |actions| + 1
  {
    forall i | 0 <= i < |actions| :: HarmlessAction(states[i], chain, actions[i])
  }

  /** What the nodes are, without how they got there. */
  ghost function Live(sys: System, chain: Chain): A.System {
    A.System(map p | p in sys.nodes :: Now(chain, sys.nodes[p]), sys.log)
  }

  ghost function Durable(sys: System, chain: Chain): A.System {
    A.System(map p | p in sys.nodes :: Flushed(chain, sys.nodes[p]), sys.log)
  }

  // ----------------------------------------------------------------- the invariant

  ghost function Everything(chain: Chain, log: seq<Vote>): World {
    World(chain, A.Cast(log), 0, 0)
  }

  /** The input was in order, did no harm and finalized nothing. */
  ghost predicate TurnOK(s: RoundState, chain: Chain, turn: Turn, log: seq<Vote>) {
    && Expected(s, A.Cast(log), turn.input) && Harmless(s, chain, turn)
    && Handle(s, chain, turn.env, turn.input).decisions == s.decisions
  }

  ghost predicate AllTurnsOK(chain: Chain, s: RoundState, turns: seq<Turn>, log: seq<Vote>) {
    forall n | 0 <= n < |turns| :: TurnOK(After(chain, s, turns, n), chain, turns[n], log)
  }

  ghost predicate EntryOK(chain: Chain, p: nat, s: RoundState, log: seq<Vote>) {
    s.self == p && NodeOK(s, Everything(chain, log)) && AtRest(s, chain)
  }

  /** The height began at rest, and every input since was in order. */
  ghost predicate NodeTurnsOK(chain: Chain, p: nat, node: Node, log: seq<Vote>) {
    && EntryOK(chain, p, node.entry, log)
    && node.synced <= |node.turns| && AllTurnsOK(chain, node.entry, node.turns, log)
  }

  /** Every vote of a correct node was asked for in its flushed inputs. */
  ghost predicate LogOK(sys: System, chain: Chain) {
    forall i | 0 <= i < |sys.log| && sys.log[i].voter in sys.nodes :: A.LoggedOK(Durable(sys, chain), i)
  }

  ghost predicate SystemOK(sys: System, chain: Chain) {
    && (forall p | p in sys.nodes :: NodeTurnsOK(chain, p, sys.nodes[p], sys.log))
    && LogOK(sys, chain)
  }

  // ------------------------------------------------------------------- one node's past

  lemma {:induction false} AfterPrefix(chain: Chain, s: RoundState, turns: seq<Turn>, more: seq<Turn>, n: nat)
    requires n <= |turns| && turns <= more
    ensures After(chain, s, turns, n) == After(chain, s, more, n)
  {
    if n > 0 {
      AfterPrefix(chain, s, turns, more, n - 1);
    }
  }

  lemma TurnWider(s: RoundState, chain: Chain, turn: Turn, log: seq<Vote>, log': seq<Vote>)
    requires TurnOK(s, chain, turn, log) && log <= log'
    ensures TurnOK(s, chain, turn, log')
  {
    hide Harmless, Handle;
    assert A.Cast(log) <= A.Cast(log');
  }

  lemma TurnsWider(chain: Chain, p: nat, node: Node, log: seq<Vote>, log': seq<Vote>)
    requires NodeTurnsOK(chain, p, node, log) && log <= log'
    ensures NodeTurnsOK(chain, p, node, log')
  {
    hide TurnOK, After, NodeOK, AtRest;
    A.WiderWorld(node.entry, Everything(chain, log), Everything(chain, log'));
    forall n | 0 <= n < |node.turns|
      ensures TurnOK(After(chain, node.entry, node.turns, n), chain, node.turns[n], log')
    {
      TurnWider(After(chain, node.entry, node.turns, n), chain, node.turns[n], log, log');
    }
  }

  /** The node was sound all along, and no height has passed. */
  lemma {:induction false} SoundAfter(chain: Chain, p: nat, s: RoundState, turns: seq<Turn>, log: seq<Vote>, n: nat)
    requires ChainOK(chain) && EntryOK(chain, p, s, log) && AllTurnsOK(chain, s, turns, log) && n <= |turns|
    ensures var s' := After(chain, s, turns, n);
      s'.self == p && NodeOK(s', Everything(chain, log)) && s'.decisions == s.decisions
    ensures n > 0 ==> Follows(After(chain, s, turns, n - 1), After(chain, s, turns, n))
  {
    hide NodeOK, Handle, Harmless, AtRest;
    if n > 0 {
      SoundAfter(chain, p, s, turns, log, n - 1);
      var t := turns[n - 1];
      assert TurnOK(After(chain, s, turns, n - 1), chain, t, log);
      HandleOK(After(chain, s, turns, n - 1), Everything(chain, log), t.env, t.input);
    }
  }

  lemma {:induction false} Grows(chain: Chain, p: nat, s: RoundState, turns: seq<Turn>, log: seq<Vote>, m: nat, n: nat)
    requires ChainOK(chain) && EntryOK(chain, p, s, log) && AllTurnsOK(chain, s, turns, log) && m <= n <= |turns|
    ensures After(chain, s, turns, m).signed <= After(chain, s, turns, n).signed
    decreases n
  {
    hide EntryOK, NodeOK, After, AllTurnsOK, ChainOK;
    if m < n {
      Grows(chain, p, s, turns, log, m, n - 1);
      SoundAfter(chain, p, s, turns, log, n);
    }
  }

  /** One more input. */
  lemma TurnsGrow(chain: Chain, s: RoundState, turns: seq<Turn>, turn: Turn, log: seq<Vote>)
    requires AllTurnsOK(chain, s, turns, log) && TurnOK(After(chain, s, turns, |turns|), chain, turn, log)
    ensures AllTurnsOK(chain, s, turns + [turn], log)
    ensures After(chain, s, turns + [turn], |turns| + 1)
         == Handle(After(chain, s, turns, |turns|), chain, turn.env, turn.input)
  {
    hide TurnOK, Handle;
    var more := turns + [turn];
    AfterPrefix(chain, s, turns, more, |turns|);
    forall n | 0 <= n < |more| ensures TurnOK(After(chain, s, more, n), chain, more[n], log) {
      AfterPrefix(chain, s, turns, more, n);
      if n < |turns| {
        assert TurnOK(After(chain, s, turns, n), chain, turns[n], log);
      }
    }
  }

  // -------------------------------------------------------------------------- replay

  /** The state of then, but for claims, votes of the last commit and pending timeouts of
      round 0. */
  ghost predicate GivesBack(replayed: RoundState, s: RoundState) {
    Alike(replayed, Bare(s))
  }

  lemma ReplayedTurnOK(r: RoundState, s: RoundState, chain: Chain, turn: Turn, log: seq<Vote>)
    requires GivesBack(r, s) && NodeOK(s, Everything(chain, log))
    requires TurnOK(s, chain, turn, log) && IsWritten(turn.input)
    ensures TurnOK(r, chain, turn, log)
    ensures GivesBack(Handle(r, chain, turn.env, turn.input), Handle(s, chain, turn.env, turn.input))
  {
    ReplayedHarmless(r, s, turn.env, turn.input);
    hide NodeOK, Handle, Bare, CountsByClaim, SkipsWait, CutsWait, LostOnReplay;
    var s', r' := Handle(s, chain, turn.env, turn.input), Handle(r, chain, turn.env, turn.input);
    WrittenStep(s, Everything(chain, log), chain, turn.env, turn.input);
    AlikeHandle(r, Bare(s), chain, turn.env, turn.input);
    AlikeTwice(r', Handle(Bare(s), chain, turn.env, turn.input), Bare(s'));
    BareKeeps(s);
    BareKeeps(s');
    if turn.input.TimeoutInput? && turn.input.timeout.round > 0 {
      assert turn.input.timeout in Later(Bare(s).timeouts);
    }
  }

  lemma BareKeeps(s: RoundState)
    ensures Bare(s).timeouts == s.timeouts && Bare(s).decisions == BareDecisions(s.decisions)
  {
  }

  lemma ReplayedHarmless(r: RoundState, s: RoundState, env: Env, input: Input)
    requires GivesBack(r, s) && IsWritten(input) && !LostOnReplay(s, input) && !CutsWait(s, env, input)
    ensures !LostOnReplay(r, input) && !CutsWait(r, env, input)
  {
    hide BareSigned, BareDecisions, Later, BareVotes, BareBlocks;
    BareFacts(s);
    if input.VoteInput? {
      VotesFacts(s.votes, input.vote.round);
      BareUnknown(SetOf(s.votes, input.vote.kind, input.vote.round), input.vote.voter, input.vote.id);
    }
  }

  /** Replaying the written inputs of a height gives back the state of then. */
  lemma {:induction false} Replayed(chain: Chain, p: nat, s: RoundState, turns: seq<Turn>, log: seq<Vote>, n: nat)
    requires ChainOK(chain) && EntryOK(chain, p, s, log) && AllTurnsOK(chain, s, turns, log) && n <= |turns|
    ensures var w := Written(turns[..n]);
      && AllTurnsOK(chain, Fresh(s, chain), w, log)
      && GivesBack(After(chain, Fresh(s, chain), w, |w|), After(chain, s, turns, n))
  {
    hide EntryOK, NodeOK, Handle, TurnOK, ChainOK, GivesBack, Fresh;
    if n == 0 {
      FreshGivesBack(chain, p, s, log);
    } else {
      Replayed(chain, p, s, turns, log, n - 1);
      assert turns[..n][..n - 1] == turns[..n - 1];
      var w := Written(turns[..n - 1]);
      var s1, r1, t := After(chain, s, turns, n - 1), After(chain, Fresh(s, chain), w, |w|), turns[n - 1];
      assert TurnOK(s1, chain, t, log);
      if IsWritten(t.input) {
        SoundAfter(chain, p, s, turns, log, n - 1);
        ReplayedTurnOK(r1, s1, chain, t, log);
        TurnsGrow(chain, Fresh(s, chain), w, t, log);
      } else {
        ReplayedWithout(r1, s1, chain, t, log);
      }
    }
  }

  lemma FreshGivesBack(chain: Chain, p: nat, s: RoundState, log: seq<Vote>)
    requires EntryOK(chain, p, s, log)
    ensures GivesBack(Fresh(s, chain), s)
  {
    FreshAlike(s, chain);
  }

  lemma ReplayedWithout(r: RoundState, s: RoundState, chain: Chain, turn: Turn, log: seq<Vote>)
    requires GivesBack(r, s) && TurnOK(s, chain, turn, log) && !IsWritten(turn.input)
    ensures GivesBack(r, Handle(s, chain, turn.env, turn.input))
  {
    hide Handle, Bare, Alike;
    UnwrittenStep(s, chain, turn.env, turn.input);
    AlikeTwice(r, Bare(s), Bare(Handle(s, chain, turn.env, turn.input)));
  }

  lemma FreshEntryOK(chain: Chain, p: nat, s: RoundState, log: seq<Vote>)
    requires ChainOK(chain) && EntryOK(chain, p, s, log)
    ensures EntryOK(chain, p, Fresh(s, chain), log)
  {
    hide NodeOK, Fresh, ChainOK;
    FreshOK(s, Everything(chain, log));
    FreshRests(s, chain);
  }

  /** A start gives back the state of then if and only if the end of the height below is
      marked, or that state is still the one the height began with. */
  lemma StartGivesBack(chain: Chain, p: nat, node: Node, kept: nat, log: seq<Vote>)
    requires ChainOK(chain) && NodeTurnsOK(chain, p, node, log) && kept <= |node.turns|
    ensures var s := After(chain, node.entry, node.turns, kept);
      GivesBack(Now(chain, Restarted(chain, node, kept)), s) <==> Marked(node) || Alike(Bare(node.entry), Bare(s))
  {
    hide NodeOK, AllTurnsOK, After, ChainOK, Alike, Fresh, Bare, AtRest;
    var s := After(chain, node.entry, node.turns, kept);
    if Marked(node) {
      Replayed(chain, p, node.entry, node.turns, log, kept);
    } else {
      var f := Fresh(node.entry, chain);
      FreshAlike(node.entry, chain);
      assert Now(chain, Restarted(chain, node, kept)) == f by {
        Unturned(chain, Restarted(chain, node, kept));
      }
      AlikeBack(f, Bare(node.entry));
      if Alike(f, Bare(s)) {
        AlikeTwice(Bare(node.entry), f, Bare(s));
      }
      if Alike(Bare(node.entry), Bare(s)) {
        AlikeTwice(f, Bare(node.entry), Bare(s));
      }
    }
  }

  lemma Unturned(chain: Chain, node: Node)
    requires node.turns == []
    ensures Now(chain, node) == Flushed(chain, node) == node.entry
  {
  }

  /** Each request is there, with the votes it was decided on, claims aside. */
  ghost predicate Remembers(a: seq<SignRequest>, b: seq<SignRequest>) {
    && |a| <= |b|
    && forall k | 0 <= k < |a| :: b[k] == a[k] || b[k] == a[k].(votes := BareVotes(a[k].votes))
  }

  /** A new start at the same height has all requests that were flushed if and only if it
      does no harm. */
  lemma RestartForgetsNothing(chain: Chain, p: nat, node: Node, kept: nat, log: seq<Vote>)
    requires ChainOK(chain) && NodeTurnsOK(chain, p, node, log) && node.synced <= kept <= |node.turns|
    ensures var node' := Restarted(chain, node, kept);
      && NodeTurnsOK(chain, p, node', log) && Now(chain, node') == Flushed(chain, node')
      && Now(chain, node').decisions == BareDecisions(Now(chain, node).decisions)
      && (Remembers(Flushed(chain, node).signed, Flushed(chain, node').signed) <==> HarmlessStart(chain, node))
  {
    hide NodeOK, AllTurnsOK, After, ChainOK, BareVotes, Fresh, AtRest, Later;
    var node' := Restarted(chain, node, kept);
    FreshEntryOK(chain, p, node.entry, log);
    SoundAfter(chain, p, node.entry, node.turns, log, |node.turns|);
    SoundAfter(chain, p, node.entry, node.turns, log, kept);
    Grows(chain, p, node.entry, node.turns, log, node.synced, kept);
    EntryBefore(chain, p, node, log);
    if Marked(node) {
      Replayed(chain, p, node.entry, node.turns, log, kept);
    } else {
      FreshAlike(node.entry, chain);
      Unturned(chain, node');
      NoTurns(chain, node'.entry, log);
    }
  }

  lemma NoTurns(chain: Chain, s: RoundState, log: seq<Vote>)
    ensures AllTurnsOK(chain, s, [], log)
  {
  }

  lemma EntryBefore(chain: Chain, p: nat, node: Node, log: seq<Vote>)
    requires ChainOK(chain) && NodeTurnsOK(chain, p, node, log)
    ensures node.entry.signed <= Flushed(chain, node).signed
  {
    hide EntryOK, NodeOK, AllTurnsOK, ChainOK, Handle;
    Grows(chain, p, node.entry, node.turns, log, 0, node.synced);
  }

  // ------------------------------------------------------------------ the log of votes

  /** A vote of the log that is among the requests of a node that knew it. */
  lemma Logged(live: A.System, chain: Chain, log: seq<Vote>, from: RoundState, i: nat)
    requires log <= live.log && |log| <= i < |live.log| && live.log[i].voter in live.nodes
    requires var s := live.nodes[live.log[i].voter];
      NodeOK(s, Everything(chain, log)) && A.Asked(from, s, live.log[i])
    ensures A.LoggedOK(live, i)
  {
    hide NodeOK;
    var v := live.log[i];
    var s := live.nodes[v.voter];
    var k :| |from.signed| <= k < |s.signed| && s.signed[k].vote == v;
    A.NodeSigned(s, Everything(chain, log), k);
    assert live.log[..i] == log + live.log[|log|..i];
    A.MoreCast(s.signed[k].votes, v.height, A.Cast(log), A.Cast(live.log[..i]));
    assert A.SignedAt(s, v, k, live.log[..i]);
  }

  /** Released votes carry the address of the node that asked for them. */
  lemma AskedBy(from: RoundState, s: RoundState, w: World, v: Vote)
    requires NodeOK(s, w) && A.Asked(from, s, v)
    ensures v.voter == s.self
  {
    hide NodeOK;
    var k :| |from.signed| <= k < |s.signed| && s.signed[k].vote == v;
    A.NodeSigned(s, w, k);
  }

  /** A logged vote stays accounted for while its node remembers its requests. */
  lemma LoggedStays(sys: A.System, sys': A.System, i: nat)
    requires i < |sys.log| && sys.log <= sys'.log
    requires sys.log[i].voter in sys.nodes && sys.log[i].voter in sys'.nodes
    requires Remembers(sys.nodes[sys.log[i].voter].signed, sys'.nodes[sys.log[i].voter].signed)
    requires A.LoggedOK(sys, i)
    ensures A.LoggedOK(sys', i)
  {
    hide HeightVoteSetFrom, BareVotes;
    var v := sys.log[i];
    var k :| A.SignedAt(sys.nodes[v.voter], v, k, sys.log[..i]);
    assert sys'.log[..i] == sys.log[..i];
    BareFrom(sys.nodes[v.voter].signed[k].votes, v.height, A.Cast(sys.log[..i]));
    assert A.SignedAt(sys'.nodes[v.voter], v, k, sys'.log[..i]);
  }

  /** One node changes, remembering its requests, and some of them are released. */
  lemma LogGrows(sys: System, chain: Chain, sys': System, p: nat, from: RoundState, released: seq<Vote>)
    requires LogOK(sys, chain) && p in sys.nodes && p in sys'.nodes && sys'.nodes == sys.nodes[p := sys'.nodes[p]]
    requires sys'.log == sys.log + released
    requires Remembers(Flushed(chain, sys.nodes[p]).signed, Flushed(chain, sys'.nodes[p]).signed)
    requires released != [] ==>
      var s := Flushed(chain, sys'.nodes[p]);
      s.self == p && NodeOK(s, Everything(chain, sys.log)) && forall v | v in released :: A.Asked(from, s, v)
    ensures LogOK(sys', chain)
  {
    hide NodeOK, Flushed, A.Asked, A.LoggedOK, BareVotes;
    var durable, durable' := Durable(sys, chain), Durable(sys', chain);
    forall i | 0 <= i < |sys'.log| && sys'.log[i].voter in sys'.nodes ensures A.LoggedOK(durable', i) {
      if i < |sys.log| {
        assert sys'.log[i] == sys.log[i];
        LoggedStays(durable, durable', i);
      } else {
        assert sys'.log[i] == released[i - |sys.log|];
        AskedBy(from, Flushed(chain, sys'.nodes[p]), Everything(chain, sys.log), sys'.log[i]);
        Logged(durable', chain, sys.log, from, i);
      }
    }
  }

  // --------------------------------------------------------------------------- steps

  /** A node handles an input. */
  lemma NodeHandles(chain: Chain, p: nat, node: Node, turn: Turn, flushed: bool, log: seq<Vote>)
    requires ChainOK(chain) && NodeTurnsOK(chain, p, node, log)
    requires Expected(Now(chain, node), A.Cast(log), turn.input) && Harmless(Now(chain, node), chain, turn)
    ensures var node' := Handled(chain, node, turn, flushed);
      var s' := Handle(Now(chain, node), chain, turn.env, turn.input);
      && NodeTurnsOK(chain, p, node', log) && Now(chain, node') == s'
      && s'.self == p && NodeOK(s', Everything(chain, log)) && (flushed ==> Flushed(chain, node') == s')
      && Remembers(Flushed(chain, node).signed, Flushed(chain, node').signed)
  {
    hide NodeOK, AllTurnsOK, After, ChainOK, Handle, BareVotes, AtRest, LostOnReplay, CutsWait, SkipsWait;
    var s := Now(chain, node);
    var s' := Handle(s, chain, turn.env, turn.input);
    SoundAfter(chain, p, node.entry, node.turns, log, |node.turns|);
    HandleOK(s, Everything(chain, log), turn.env, turn.input);
    if s'.decisions != s.decisions {
      FinalizingRests(s, chain, turn.env, turn.input);
      NoTurns(chain, s', log);
      Unturned(chain, Handled(chain, node, turn, flushed));
      Grows(chain, p, node.entry, node.turns, log, node.synced, |node.turns|);
    } else {
      var turns := node.turns + [turn];
      TurnsGrow(chain, node.entry, node.turns, turn, log);
      AfterPrefix(chain, node.entry, node.turns, turns, node.synced);
      Grows(chain, p, node.entry, turns, log, node.synced, |turns|);
    }
  }

  lemma HandlesOK(sys: System, chain: Chain, a: Action, sys': System)
    requires ChainOK(chain) && SystemOK(sys, chain) && a.Handles? && Next(sys, chain, a, sys')
    requires HarmlessAction(sys, chain, a)
    ensures SystemOK(sys', chain)
  {
    hide NodeOK, Now, Flushed, NodeTurnsOK, LogOK, ChainOK, Harmless, Remembers, Handled, Handle;
    NodeHandles(chain, a.node, sys.nodes[a.node], a.turn, a.flushed, sys.log);
    forall p | p in sys'.nodes ensures NodeTurnsOK(chain, p, sys'.nodes[p], sys'.log) {
      TurnsWider(chain, p, sys'.nodes[p], sys.log, sys'.log);
    }
    LogGrows(sys, chain, sys', a.node, Now(chain, sys.nodes[a.node]), a.released);
  }

  lemma NowOK(chain: Chain, p: nat, node: Node, log: seq<Vote>)
    requires ChainOK(chain) && NodeTurnsOK(chain, p, node, log)
    ensures Now(chain, node).self == p && NodeOK(Now(chain, node), Everything(chain, log))
    ensures Remembers(Flushed(chain, node).signed, Now(chain, node).signed)
  {
    hide EntryOK, NodeOK, After, AllTurnsOK, ChainOK, BareVotes;
    SoundAfter(chain, p, node.entry, node.turns, log, |node.turns|);
    Grows(chain, p, node.entry, node.turns, log, node.synced, |node.turns|);
  }

  lemma RestartsOK(sys: System, chain: Chain, a: Action, sys': System)
    requires ChainOK(chain) && SystemOK(sys, chain) && a.Restarts? && Next(sys, chain, a, sys')
    requires HarmlessAction(sys, chain, a)
    ensures SystemOK(sys', chain)
  {
    hide NodeOK, Now, Flushed, NodeTurnsOK, LogOK, ChainOK, Remembers, BareDecisions, HarmlessStart, Restarted;
    RestartForgetsNothing(chain, a.node, sys.nodes[a.node], a.kept, sys.log);
    NowOK(chain, a.node, sys'.nodes[a.node], sys.log);
    forall p | p in sys'.nodes ensures NodeTurnsOK(chain, p, sys'.nodes[p], sys'.log) {
      TurnsWider(chain, p, sys'.nodes[p], sys.log, sys'.log);
    }
    LogGrows(sys, chain, sys', a.node, sys'.nodes[a.node].entry, a.released);
  }

  /** A start at the next height keeps all requests and adds one block. */
  lemma NodeStartsAhead(chain: Chain, p: nat, node: Node, kept: nat, d: Decision, marked: bool, log: seq<Vote>)
    requires ChainOK(chain) && NodeTurnsOK(chain, p, node, log) && node.synced <= kept <= |node.turns|
    requires Committed(After(chain, node.entry, node.turns, kept), d, A.Cast(log))
    ensures var node' := StartedAhead(chain, node, kept, d, marked);
      && NodeTurnsOK(chain, p, node', log)
      && Remembers(Flushed(chain, node).signed, Flushed(chain, node').signed)
      && Flushed(chain, node').decisions == BareDecisions(Now(chain, node).decisions + [d])
      && node'.ended == node.ended + if marked then {After(chain, node.entry, node.turns, kept).height} else {}
  {
    hide NodeOK, AllTurnsOK, After, ChainOK, BareVotes, AtRest, Committed, SeenCommit, Hashes;
    var s := After(chain, node.entry, node.turns, kept);
    var node' := StartedAhead(chain, node, kept, d, marked);
    SoundAfter(chain, p, node.entry, node.turns, log, kept);
    SoundAfter(chain, p, node.entry, node.turns, log, |node.turns|);
    Grows(chain, p, node.entry, node.turns, log, node.synced, kept);
    AheadOK(s, Everything(chain, log), d);
    FreshRests(WithBlock(s, d), chain);
    NoTurns(chain, node'.entry, log);
    Unturned(chain, node');
  }

  lemma StartsAheadOK(sys: System, chain: Chain, a: Action, sys': System)
    requires ChainOK(chain) && SystemOK(sys, chain) && a.StartsAhead? && Next(sys, chain, a, sys')
    ensures SystemOK(sys', chain)
  {
    hide NodeOK, Now, Flushed, NodeTurnsOK, LogOK, ChainOK, Remembers, BareDecisions, StartedAhead, Committed, After;
    NodeStartsAhead(chain, a.node, sys.nodes[a.node], a.kept, a.block, a.marked, sys.log);
    assert sys'.log == sys.log + [];
    LogGrows(sys, chain, sys', a.node, sys'.nodes[a.node].entry, []);
  }

  lemma ByzantineOK(sys: System, chain: Chain, a: Action, sys': System)
    requires SystemOK(sys, chain) && a.Byzantine? && Next(sys, chain, a, sys')
    ensures SystemOK(sys', chain)
  {
    hide NodeOK, Now, Flushed, NodeTurnsOK, A.LoggedOK, BareVotes;
    forall p | p in sys'.nodes ensures NodeTurnsOK(chain, p, sys'.nodes[p], sys'.log) {
      TurnsWider(chain, p, sys'.nodes[p], sys.log, sys'.log);
    }
    forall i | 0 <= i < |sys'.log| && sys'.log[i].voter in sys'.nodes
      ensures A.LoggedOK(Durable(sys', chain), i)
    {
      assert sys'.log[i] == sys.log[i];
      LoggedStays(Durable(sys, chain), Durable(sys', chain), i);
    }
  }

  lemma StartOK(sys: System, chain: Chain)
    requires ChainOK(chain) && Start(sys, chain)
    ensures SystemOK(sys, chain)
  {
    hide NodeOK;
    forall p | p in sys.nodes ensures NodeTurnsOK(chain, p, sys.nodes[p], sys.log) {
      InitOK(Everything(chain, sys.log), p);
      assert Hashes([]) == [];
    }
  }

  /** The invariant holds at every point of every run. */
  lemma {:induction false} RunOK(states: seq<System>, actions: seq<Action>, chain: Chain, n: nat)
    requires ChainOK(chain) && Run(states, actions, chain) && AllHarmless(states, actions, chain) && n < |states|
    ensures SystemOK(states[n], chain)
  {
    hide ChainOK, HarmlessAction, SystemOK, Start;
    if n == 0 {
      StartOK(states[0], chain);
    } else {
      RunOK(states, actions, chain, n - 1);
      var sys, a, sys' := states[n - 1], actions[n - 1], states[n];
      assert Next(sys, chain, a, sys') && HarmlessAction(sys, chain, a);
      hide Next;
      match a
      case Handles(_, _, _, _) => HandlesOK(sys, chain, a, sys');
      case Restarts(_, _, _) => RestartsOK(sys, chain, a, sys');
      case StartsAhead(_, _, _, _) => StartsAheadOK(sys, chain, a, sys');
      case Byzantine(_) => ByzantineOK(sys, chain, a, sys');
    }
  }

  lemma LiveOK(sys: System, chain: Chain)
    requires ChainOK(chain) && SystemOK(sys, chain)
    ensures A.SystemOK(Live(sys, chain), chain)
  {
    hide NodeOK, NodeTurnsOK, Now, Flushed, A.LoggedOK, ChainOK, Remembers;
    var live := Live(sys, chain);
    forall p | p in live.nodes
      ensures live.nodes[p].self == p && NodeOK(live.nodes[p], A.WorldOf(live.nodes[p], chain, live.log))
    {
      NowOK(chain, p, sys.nodes[p], sys.log);
      A.WiderWorld(live.nodes[p], Everything(chain, sys.log), A.WorldOf(live.nodes[p], chain, live.log));
    }
    forall i | 0 <= i < |sys.log| && sys.log[i].voter in sys.nodes ensures A.LoggedOK(live, i) {
      var p := sys.log[i].voter;
      NowOK(chain, p, sys.nodes[p], sys.log);
      LoggedStays(Durable(sys, chain), live, i);
    }
  }

  /** Agreement with any number of restarts: in every run in which no input is lost on a
      replay, no wait between heights is cut short, every start finds its marker unless no
      vote was asked for since, and faulty addresses weigh less than a third, two correct
      nodes that both finalized a height finalized the same block. */
  lemma AgreementWithRestarts(states: seq<System>, actions: seq<Action>, chain: Chain, n: nat, p: nat, q: nat, k: nat)
    requires ChainOK(chain) && Run(states, actions, chain) && AllHarmless(states, actions, chain) && n < |states|
    requires A.FaultBound(Live(states[n], chain), chain) && p in states[n].nodes && q in states[n].nodes
    requires k < |Now(chain, states[n].nodes[p]).decisions| && k < |Now(chain, states[n].nodes[q]).decisions|
    ensures var b, c := Now(chain, states[n].nodes[p]).decisions[k], Now(chain, states[n].nodes[q]).decisions[k];
      b.id.BlockID? && c.id.BlockID? && b.id.hash == c.id.hash
  {
    hide SystemOK, A.SystemOK, A.FaultBound, Run, ChainOK, Now, AllHarmless;
    RunOK(states, actions, chain, n);
    LiveOK(states[n], chain);
    A.SameBlock(Live(states[n], chain), chain, p, q, k);
  }
}
