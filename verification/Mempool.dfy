/** The mempool under concurrent CheckTx calls and removals, step by step: every read and
    write of the shared list, map, counters and cache is a step of its own. */
module Mempool {
  import Cache = TxCache

  type Tx = int

  datatype Config = Config(size: nat, maxTxsBytes: nat, cacheSize: int, keepInvalid: bool, txSize: Tx -> nat)

  /** How far a CheckTx call has come, since it found its transaction not in the map. */
  datatype Stage =
    | Checked
    | Cached
    | Locked
    | ReadLen(len: int)
    | ReadBoth(len: int, bytes: int)
    | Full
    | Reserved
    | Pushed(id: nat)
    | Stored
    | Counted
    | Refused
    | Gone

  datatype Thread = Thread(tx: Tx, stage: Stage)

  datatype Element = Element(id: nat, tx: Tx)

  /** How far a removal has come. */
  datatype Phase = Found | Unlisted | Unmapped | Subtracted | Finished

  /** Removing the element `id`, which the map had for the transaction. */
  datatype Removal = Removal(tx: Tx, id: nat, drop: bool, phase: Phase)

  datatype State = State(
    list: seq<Element>, txsMap: map<Tx, nat>, txsBytes: int, reserved: int, reservedBytes: int,
    mutex: int, cache: seq<Tx>, threads: seq<Thread>, removals: seq<Removal>, nextId: nat,
    leaked: nat, leakedBytes: nat, evicted: bool)

  const FREE := -1

  function Init(): State {
    State([], map[], 0, 0, 0, FREE, [], [], [], 0, 0, 0, false)
  }

  // --------------------------------------------------------------------------- steps

  datatype Action =
    | Begin(tx: Tx)
    | Abandon(t: nat)
    | PushCache(t: nat)
    | Lock(t: nat)
    | LoadLen(t: nat)
    | LoadBytes(t: nat)
    | Decide(t: nat)
    | GiveUp(t: nat)
    | AppFails(t: nat)
    | Push(t: nat)
    | Store(t: nat)
    | Count(t: nat)
    | Refuse(t: nat)
    | Release(t: nat)
    | Find(tx: Tx, drop: bool)
    | Unlist(r: nat)
    | Unmap(r: nat)
    | Subtract(r: nat)
    | DropFromCache(r: nat)
    | Commit(tx: Tx, valid: bool)

  predicate At(s: State, t: nat, stage: Stage) {
    t < |s.threads| && s.threads[t].stage == stage
  }

  function Move(s: State, t: nat, stage: Stage): State
    requires t < |s.threads|
  {
    s.(threads := s.threads[t := s.threads[t].(stage := stage)])
  }

  predicate AtPhase(s: State, r: nat, phase: Phase) {
    r < |s.removals| && s.removals[r].phase == phase
  }

  function Advance(s: State, r: nat, phase: Phase): State
    requires r < |s.removals|
  {
    s.(removals := s.removals[r := s.removals[r].(phase := phase)])
  }

  /** A removal that has yet to take its transaction out of the map. */
  predicate Active(removal: Removal) {
    removal.phase.Found? || removal.phase.Unlisted?
  }

  /** A call between finding its transaction not in the map and storing it there. */
  predicate Pending(th: Thread) {
    Owns(th) || th.stage.Checked?
  }

  /** A call that put its transaction into the cache and has not stored it in the map. */
  predicate Owns(th: Thread) {
    match th.stage
    case Cached => true
    case Locked => true
    case ReadLen(_) => true
    case ReadBoth(_, _) => true
    case Full => true
    case Reserved => true
    case Pushed(_) => true
    case _ => false
  }

  predicate Quiet(s: State) {
    && (forall i | 0 <= i < |s.removals| :: s.removals[i].phase.Finished?)
    && (forall i | 0 <= i < |s.threads| :: s.threads[i].stage.Gone?)
  }

  /** Some call is pending with a transaction that the cache lost. */
  ghost predicate Loses(threads: seq<Thread>, cache: seq<Tx>, cache': seq<Tx>) {
    exists i :: 0 <= i < |threads| && Pending(threads[i]) && threads[i].tx in cache && threads[i].tx !in cache'
  }

  /** Removals may overlap, of one element they do not. */
  predicate Removable(removals: seq<Removal>, id: nat) {
    forall i | 0 <= i < |removals| && Active(removals[i]) :: removals[i].id != id
  }

  ghost predicate Enabled(s: State, a: Action) {
    match a
    case Begin(tx) => tx !in s.txsMap
    case Abandon(t) => At(s, t, Checked)
    case PushCache(t) => At(s, t, Checked)
    case Lock(t) => At(s, t, Cached) && s.mutex == FREE
    case LoadLen(t) => At(s, t, Locked)
    case LoadBytes(t) => t < |s.threads| && s.threads[t].stage.ReadLen?
    case Decide(t) => t < |s.threads| && s.threads[t].stage.ReadBoth?
    case GiveUp(t) => At(s, t, Full)
    case AppFails(t) => At(s, t, Reserved)
    case Push(t) => At(s, t, Reserved)
    case Store(t) => t < |s.threads| && s.threads[t].stage.Pushed?
    case Count(t) => At(s, t, Stored)
    case Refuse(t) => At(s, t, Reserved)
    case Release(t) => (At(s, t, Counted) || At(s, t, Refused)) && s.mutex == FREE
    case Find(tx, _) => tx in s.txsMap && Removable(s.removals, s.txsMap[tx])
    case Unlist(r) => AtPhase(s, r, Found)
    case Unmap(r) => AtPhase(s, r, Unlisted)
    case Subtract(r) => AtPhase(s, r, Unmapped)
    case DropFromCache(r) => AtPhase(s, r, Subtracted)
    case Commit(_, _) => Quiet(s)
  }

  function Without(list: seq<Element>, id: nat): seq<Element> {
    if list == [] then []
    else if list[|list| - 1].id == id then Without(list[..|list| - 1], id)
    else Without(list[..|list| - 1], id) + [list[|list| - 1]]
  }

  /** A cache of no size remembers nothing. */
  function Remember(c: Config, cache: seq<Tx>, tx: Tx): seq<Tx> {
    if c.cacheSize > 0 then Cache.Pushed(cache, c.cacheSize, tx) else cache
  }

  ghost function Step(c: Config, s: State, a: Action): State
    requires Enabled(s, a)
  {
    match a
    case Begin(tx) => s.(threads := s.threads + [Thread(tx, Checked)])
    case Abandon(t) => Move(s, t, Gone)
    case PushCache(t) =>
      var tx := s.threads[t].tx;
      var cache := Remember(c, s.cache, tx);
      Move(s, t, if tx in s.cache then Gone else Cached).(
        cache := cache, evicted := s.evicted || Loses(s.threads, s.cache, cache))
    case Lock(t) => Move(s, t, Locked).(mutex := t)
    case LoadLen(t) => Move(s, t, ReadLen(|s.list|))
    case LoadBytes(t) => Move(s, t, ReadBoth(s.threads[t].stage.len, s.txsBytes))
    case Decide(t) =>
      var size, stage := c.txSize(s.threads[t].tx), s.threads[t].stage;
      if stage.len + s.reserved >= c.size || size + s.reservedBytes + stage.bytes > c.maxTxsBytes
      then Move(s, t, Full).(mutex := FREE)
      else Move(s, t, Reserved).(mutex := FREE, reserved := s.reserved + 1, reservedBytes := s.reservedBytes + size)
    case GiveUp(t) => Move(s, t, Gone).(cache := Cache.Drop(s.cache, s.threads[t].tx))
    case AppFails(t) =>
      Move(s, t, Gone).(leaked := s.leaked + 1, leakedBytes := s.leakedBytes + c.txSize(s.threads[t].tx))
    case Push(t) =>
      Move(s, t, Pushed(s.nextId)).(list := s.list + [Element(s.nextId, s.threads[t].tx)], nextId := s.nextId + 1)
    case Store(t) => Move(s, t, Stored).(txsMap := s.txsMap[s.threads[t].tx := s.threads[t].stage.id])
    case Count(t) => Move(s, t, Counted).(txsBytes := s.txsBytes + c.txSize(s.threads[t].tx))
    case Refuse(t) =>
      Move(s, t, Refused).(cache := if c.keepInvalid then s.cache else Cache.Drop(s.cache, s.threads[t].tx))
    case Release(t) =>
      Move(s, t, Gone).(reserved := s.reserved - 1, reservedBytes := s.reservedBytes - c.txSize(s.threads[t].tx))
    case Find(tx, drop) => s.(removals := s.removals + [Removal(tx, s.txsMap[tx], drop, Found)])
    case Unlist(r) => Advance(s, r, Unlisted).(list := Without(s.list, s.removals[r].id))
    case Unmap(r) => Advance(s, r, Unmapped).(txsMap := s.txsMap - {s.removals[r].tx})
    case Subtract(r) => Advance(s, r, Subtracted).(txsBytes := s.txsBytes - c.txSize(s.removals[r].tx))
    case DropFromCache(r) =>
      var cache := if s.removals[r].drop then Cache.Drop(s.cache, s.removals[r].tx) else s.cache;
      Advance(s, r, Finished).(cache := cache, evicted := s.evicted || Loses(s.threads, s.cache, cache))
    case Commit(tx, valid) =>
      var seen := s.(cache :=
        if valid then Remember(c, s.cache, tx)
        else if c.keepInvalid then s.cache else Cache.Drop(s.cache, tx));
      if tx !in s.txsMap then seen
      else seen.(
          list := Without(s.list, s.txsMap[tx]), txsMap := s.txsMap - {tx}, txsBytes := s.txsBytes - c.txSize(tx))
  }

  ghost predicate IsRun(c: Config, states: seq<State>, actions: seq<Action>) {
    && |states| == |actions| + 1 && states[0] == Init()
    && forall i | 0 <= i < |actions| ::
          Enabled(states[i], actions[i]) && states[i + 1] == Step(c, states[i], actions[i])
  }

  // ---------------------------------------------------------------------------- sums

  datatype Measure = OneHeld | OneWaiting | BytesHeld | BytesWaiting | BytesUncounted

  /** What one call adds to each measure: reservations held, reservations whose
      transaction is not in the list yet, and transactions in the list not counted yet. */
  ghost function Weight(c: Config, m: Measure, th: Thread): nat {
    var held := th.stage in {Reserved, Stored, Counted, Refused} || th.stage.Pushed?;
    match m
    case OneHeld => if held then 1 else 0
    case OneWaiting => if th.stage.Reserved? then 1 else 0
    case BytesHeld => if held then c.txSize(th.tx) else 0
    case BytesWaiting => if th.stage.Reserved? then c.txSize(th.tx) else 0
    case BytesUncounted => if th.stage.Pushed? || th.stage.Stored? then c.txSize(th.tx) else 0
  }

  ghost function Sum(c: Config, m: Measure, threads: seq<Thread>): nat {
    if threads == [] then 0
    else Sum(c, m, threads[..|threads| - 1]) + Weight(c, m, threads[|threads| - 1])
  }

  lemma {:induction false} SumMove(c: Config, m: Measure, threads: seq<Thread>, t: nat, th: Thread)
    requires t < |threads|
    ensures Sum(c, m, threads[t := th]) == Sum(c, m, threads) - Weight(c, m, threads[t]) + Weight(c, m, th)
  {
    var n := |threads| - 1;
    if t < n {
      assert threads[t := th][..n] == threads[..n][t := th];
      SumMove(c, m, threads[..n], t, th);
    } else {
      assert threads[t := th][..n] == threads[..n];
    }
  }

  lemma SumBegin(c: Config, m: Measure, threads: seq<Thread>, th: Thread)
    ensures Sum(c, m, threads + [th]) == Sum(c, m, threads) + Weight(c, m, th)
  {
    assert (threads + [th])[..|threads|] == threads;
  }

  lemma {:induction false} SumsCompare(c: Config, threads: seq<Thread>)
    ensures Sum(c, OneWaiting, threads) <= Sum(c, OneHeld, threads)
    ensures Sum(c, BytesWaiting, threads) + Sum(c, BytesUncounted, threads) <= Sum(c, BytesHeld, threads)
  {
    if threads != [] {
      SumsCompare(c, threads[..|threads| - 1]);
    }
  }

  /** What a removal has unlisted and not subtracted yet. */
  ghost function Debt(c: Config, removal: Removal): nat {
    if removal.phase.Unlisted? || removal.phase.Unmapped? then c.txSize(removal.tx) else 0
  }

  ghost function Debts(c: Config, removals: seq<Removal>): nat {
    if removals == [] then 0
    else Debts(c, removals[..|removals| - 1]) + Debt(c, removals[|removals| - 1])
  }

  lemma {:induction false} DebtsMove(c: Config, removals: seq<Removal>, r: nat, removal: Removal)
    requires r < |removals|
    ensures Debts(c, removals[r := removal]) == Debts(c, removals) - Debt(c, removals[r]) + Debt(c, removal)
  {
    var n := |removals| - 1;
    if r < n {
      assert removals[r := removal][..n] == removals[..n][r := removal];
      DebtsMove(c, removals[..n], r, removal);
    } else {
      assert removals[r := removal][..n] == removals[..n];
    }
  }

  lemma DebtsBegin(c: Config, removals: seq<Removal>, removal: Removal)
    ensures Debts(c, removals + [removal]) == Debts(c, removals) + Debt(c, removal)
  {
    assert (removals + [removal])[..|removals|] == removals;
  }

  ghost function ListBytes(c: Config, list: seq<Element>): nat {
    if list == [] then 0 else ListBytes(c, list[..|list| - 1]) + c.txSize(list[|list| - 1].tx)
  }

  ghost predicate UniqueIds(list: seq<Element>, nextId: nat) {
    && (forall i | 0 <= i < |list| :: list[i].id < nextId)
    && (forall i, j | 0 <= i < j < |list| :: list[i].id != list[j].id)
  }

  lemma {:induction false} WithoutAbsent(list: seq<Element>, id: nat)
    requires forall i | 0 <= i < |list| :: list[i].id != id
    ensures Without(list, id) == list
  {
    if list != [] {
      WithoutAbsent(list[..|list| - 1], id);
    }
  }

  /** The one list holds elements of the other in the same order. */
  ghost predicate InOrder(list: seq<Element>, of': seq<Element>) {
    list == [] || (of' != [] && var front, last := of'[..|of'| - 1], of'[|of'| - 1];
                   (list[|list| - 1] == last && InOrder(list[..|list| - 1], front)) || InOrder(list, front))
  }

  lemma {:induction false} SameOrder(list: seq<Element>)
    ensures InOrder(list, list)
  {
    if list != [] {
      SameOrder(list[..|list| - 1]);
    }
  }

  lemma {:induction false} WithoutOrder(list: seq<Element>, id: nat)
    ensures InOrder(Without(list, id), list)
  {
    if list != [] {
      var front, last := list[..|list| - 1], list[|list| - 1];
      WithoutOrder(front, id);
      if last.id != id {
        assert (Without(front, id) + [last])[..|Without(front, id)|] == Without(front, id);
      }
    }
  }

  lemma {:induction false} WithoutFacts(c: Config, list: seq<Element>, nextId: nat, e: Element)
    requires UniqueIds(list, nextId) && e in list
    ensures UniqueIds(Without(list, e.id), nextId)
    ensures forall x :: x in Without(list, e.id) <==> x in list && x != e
    ensures forall x | x in Without(list, e.id) :: x.id != e.id
    ensures |Without(list, e.id)| == |list| - 1
    ensures ListBytes(c, Without(list, e.id)) == ListBytes(c, list) - c.txSize(e.tx)
  {
    var n := |list| - 1;
    var front, last := list[..n], list[n];
    if last.id == e.id {
      WithoutAbsent(front, e.id);
      assert last == e;
    } else {
      assert e in front;
      WithoutFacts(c, front, nextId, e);
      var rest := Without(front, e.id);
      assert (rest + [last])[..n - 1] == rest;
      forall i | 0 <= i < |rest| ensures rest[i].id != last.id {
        assert rest[i] in rest && rest[i] in front;
      }
    }
  }

  // ------------------------------------------------------------------------ capacity

  predicate Holding(th: Thread) {
    th.stage.Locked? || th.stage.ReadLen? || th.stage.ReadBoth?
  }

  /** What the counters stand for, at every step. */
  ghost predicate Accounted(c: Config, s: State) {
    && s.reserved == Sum(c, OneHeld, s.threads) + s.leaked
    && s.reservedBytes == Sum(c, BytesHeld, s.threads) + s.leakedBytes
    && s.txsBytes == ListBytes(c, s.list) - Sum(c, BytesUncounted, s.threads) + Debts(c, s.removals)
  }

  /** The list together with what is on its way into it fits. */
  ghost predicate Bounded(c: Config, s: State) {
    && |s.list| + Sum(c, OneWaiting, s.threads) <= c.size
    && ListBytes(c, s.list) + Sum(c, BytesWaiting, s.threads) <= c.maxTxsBytes
  }

  /** One call at most holds the mutex, and what it has read so far, though stale, still
      bounds the list with what is on its way. */
  ghost predicate LockOK(c: Config, s: State) {
    && FREE <= s.mutex < |s.threads|
    && (forall i | 0 <= i < |s.threads| :: Holding(s.threads[i]) <==> i == s.mutex)
    && (s.mutex != FREE ==> ReadsOK(c, s, s.threads[s.mutex].stage))
  }

  ghost predicate ReadsOK(c: Config, s: State, stage: Stage) {
    && (stage.ReadLen? || stage.ReadBoth? ==> |s.list| + Sum(c, OneWaiting, s.threads) <= stage.len + s.reserved)
    && (stage.ReadBoth? ==>
          ListBytes(c, s.list) + Sum(c, BytesWaiting, s.threads) <= stage.bytes + s.reservedBytes)
  }

  ghost predicate CapacityOK(c: Config, s: State) {
    Accounted(c, s) && Bounded(c, s) && LockOK(c, s)
  }

  // ------------------------------------------------------------------ list and map

  ghost predicate StructureOK(s: State) {
    && UniqueIds(s.list, s.nextId)
    && (forall i | 0 <= i < |s.removals| && Active(s.removals[i]) :: RemovalOK(s, s.removals[i]))
    && (forall i, j | 0 <= i < j < |s.removals| && Active(s.removals[i]) && Active(s.removals[j]) ::
          s.removals[i].id != s.removals[j].id)
    && (forall k | k in s.txsMap :: MappedOK(s, k))
    && (forall i | 0 <= i < |s.threads| && s.threads[i].stage.Pushed? :: PushOK(s, s.threads[i]))
    && (forall i, j | 0 <= i < j < |s.threads| && s.threads[i].stage.Pushed? && s.threads[j].stage.Pushed? ::
          s.threads[i].stage.id != s.threads[j].stage.id)
  }

  ghost predicate RemovalOK(s: State, removal: Removal) {
    && removal.id < s.nextId
    && (removal.phase.Found? ==> Element(removal.id, removal.tx) in s.list)
    && (removal.phase.Unlisted? ==> forall e | e in s.list :: e.id != removal.id)
  }

  /** What the map has for a transaction is in the list, or a removal is taking it away. */
  ghost predicate MappedOK(s: State, k: Tx)
    requires k in s.txsMap
  {
    && s.txsMap[k] < s.nextId
    && (|| Element(s.txsMap[k], k) in s.list
        || exists i :: 0 <= i < |s.removals| && TakesAway(s.removals[i], k, s.txsMap[k]))
  }

  predicate TakesAway(removal: Removal, k: Tx, id: nat) {
    removal.phase.Unlisted? && removal.tx == k && removal.id == id
  }

  ghost predicate PushOK(s: State, th: Thread)
    requires th.stage.Pushed?
  {
    && Element(th.stage.id, th.tx) in s.list && th.stage.id < s.nextId
    && (forall k | k in s.txsMap :: s.txsMap[k] != th.stage.id)
    && Removable(s.removals, th.stage.id)
  }

  // ------------------------------------------------------------------ capacity steps

  lemma SumsMove(c: Config, threads: seq<Thread>, t: nat, th: Thread)
    requires t < |threads|
    ensures forall m :: Sum(c, m, threads[t := th]) == Sum(c, m, threads) - Weight(c, m, threads[t]) + Weight(c, m, th)
  {
    forall m ensures Sum(c, m, threads[t := th]) == Sum(c, m, threads) - Weight(c, m, threads[t]) + Weight(c, m, th) {
      SumMove(c, m, threads, t, th);
    }
  }

  lemma ListBytesPush(c: Config, list: seq<Element>, e: Element)
    ensures ListBytes(c, list + [e]) == ListBytes(c, list) + c.txSize(e.tx)
  {
    assert (list + [e])[..|list|] == list;
  }

  /** Up to its reservation, a call keeps the bounds. */
  lemma CapacityReserve(c: Config, s: State, a: Action, t: nat)
    requires CapacityOK(c, s) && Enabled(s, a)
    requires a in {Lock(t), LoadLen(t), LoadBytes(t), Decide(t)}
    ensures CapacityOK(c, Step(c, s, a))
  {
    hide Sum, ListBytes;
    var s' := Step(c, s, a);
    SumsMove(c, s.threads, t, s'.threads[t]);
    SumsCompare(c, s.threads);
  }

  lemma CapacityAround(c: Config, s: State, a: Action, t: nat)
    requires CapacityOK(c, s) && Enabled(s, a)
    requires a in {Abandon(t), PushCache(t), GiveUp(t)}
    ensures CapacityOK(c, Step(c, s, a))
  {
    hide Sum, ListBytes, Loses;
    SumsMove(c, s.threads, t, Step(c, s, a).threads[t]);
  }

  /** From its reservation on as well. */
  lemma CapacityAdd(c: Config, s: State, a: Action, t: nat)
    requires CapacityOK(c, s) && Enabled(s, a)
    requires a in {AppFails(t), Push(t), Store(t), Count(t), Refuse(t), Release(t)}
    ensures CapacityOK(c, Step(c, s, a))
  {
    hide Sum, ListBytes;
    var s' := Step(c, s, a);
    SumsMove(c, s.threads, t, s'.threads[t]);
    ListBytesPush(c, s.list, Element(s.nextId, s.threads[t].tx));
  }

  lemma CapacityBegin(c: Config, s: State, tx: Tx)
    requires CapacityOK(c, s) && Enabled(s, Begin(tx))
    ensures CapacityOK(c, Step(c, s, Begin(tx)))
  {
    hide Sum, ListBytes;
    forall m ensures Sum(c, m, s.threads + [Thread(tx, Checked)]) == Sum(c, m, s.threads) {
      SumBegin(c, m, s.threads, Thread(tx, Checked));
    }
  }

  lemma CapacityRemove(c: Config, s: State, a: Action)
    requires CapacityOK(c, s) && StructureOK(s) && Enabled(s, a)
    requires a.Find? || a.Unlist? || a.Unmap? || a.Subtract? || a.DropFromCache?
    ensures CapacityOK(c, Step(c, s, a))
  {
    hide Sum, ListBytes, Debts, Loses, Weight, Without, UniqueIds, PushOK, MappedOK;
    if a.Find? {
      DebtsBegin(c, s.removals, Removal(a.tx, s.txsMap[a.tx], a.drop, Found));
    } else {
      DebtsMove(c, s.removals, a.r, Step(c, s, a).removals[a.r]);
      if a.Unlist? {
        WithoutFacts(c, s.list, s.nextId, Element(s.removals[a.r].id, s.removals[a.r].tx));
      }
    }
  }

  lemma CapacityCommit(c: Config, s: State, tx: Tx, valid: bool)
    requires CapacityOK(c, s) && StructureOK(s) && Enabled(s, Commit(tx, valid))
    ensures CapacityOK(c, Step(c, s, Commit(tx, valid)))
  {
    hide Sum, ListBytes, Weight, Without, UniqueIds, PushOK;
    if tx in s.txsMap {
      WithoutFacts(c, s.list, s.nextId, Element(s.txsMap[tx], tx));
    }
  }

  lemma CapacityStep(c: Config, s: State, a: Action)
    requires CapacityOK(c, s) && StructureOK(s) && Enabled(s, a)
    ensures CapacityOK(c, Step(c, s, a))
  {
    hide CapacityOK, StructureOK, Step, Enabled;
    match a
    case Begin(tx) => CapacityBegin(c, s, tx);
    case Commit(tx, valid) => CapacityCommit(c, s, tx, valid);
    case Find(_, _) => CapacityRemove(c, s, a);
    case Unlist(_) => CapacityRemove(c, s, a);
    case Unmap(_) => CapacityRemove(c, s, a);
    case Subtract(_) => CapacityRemove(c, s, a);
    case DropFromCache(_) => CapacityRemove(c, s, a);
    case AppFails(t) => CapacityAdd(c, s, a, t);
    case Push(t) => CapacityAdd(c, s, a, t);
    case Store(t) => CapacityAdd(c, s, a, t);
    case Count(t) => CapacityAdd(c, s, a, t);
    case Refuse(t) => CapacityAdd(c, s, a, t);
    case Release(t) => CapacityAdd(c, s, a, t);
    case Abandon(t) => CapacityAround(c, s, a, t);
    case PushCache(t) => CapacityAround(c, s, a, t);
    case GiveUp(t) => CapacityAround(c, s, a, t);
    case _ => CapacityReserve(c, s, a, a.t);
  }

  // ------------------------------------------------------------------ structure steps

  /** A call moves on without gaining or giving up a place in the list. */
  lemma StructureMove(s: State, s': State, t: nat, stage: Stage)
    requires StructureOK(s) && t < |s.threads| && !s.threads[t].stage.Pushed? && !stage.Pushed?
    requires s'.list == s.list && s'.txsMap == s.txsMap && s'.removals == s.removals && s'.nextId == s.nextId
    requires s'.threads == s.threads[t := s.threads[t].(stage := stage)]
    ensures StructureOK(s')
  {
    hide UniqueIds;
    forall i | 0 <= i < |s'.threads| && s'.threads[i].stage.Pushed? ensures PushOK(s', s'.threads[i]) {
      assert PushOK(s, s.threads[i]);
    }
    forall k | k in s.txsMap ensures MappedOK(s', k) {
      assert MappedOK(s, k);
    }
  }

  lemma StructureCall(s: State, c: Config, a: Action, t: nat)
    requires StructureOK(s) && Enabled(s, a)
    requires a in {Abandon(t), PushCache(t), Lock(t), LoadLen(t), LoadBytes(t), Decide(t), GiveUp(t)}
          || a in {AppFails(t), Count(t), Refuse(t), Release(t)}
    ensures StructureOK(Step(c, s, a))
  {
    hide Loses, StructureOK;
    StructureMove(s, Step(c, s, a), t, Step(c, s, a).threads[t].stage);
  }

  lemma StructurePush(s: State, c: Config, t: nat)
    requires StructureOK(s) && Enabled(s, Push(t))
    ensures StructureOK(Step(c, s, Push(t)))
  {
    var s' := Step(c, s, Push(t));
    forall i | 0 <= i < |s.removals| && Active(s.removals[i]) ensures RemovalOK(s', s.removals[i]) {
      assert RemovalOK(s, s.removals[i]);
    }
    forall k | k in s.txsMap ensures MappedOK(s', k) {
      assert MappedOK(s, k);
    }
  }

  lemma StructureStore(s: State, c: Config, t: nat)
    requires StructureOK(s) && Enabled(s, Store(t))
    ensures StructureOK(Step(c, s, Store(t)))
  {
    hide UniqueIds;
    var s' := Step(c, s, Store(t));
    assert PushOK(s, s.threads[t]);
    forall k | k in s'.txsMap ensures MappedOK(s', k) {
      assert k in s.txsMap ==> MappedOK(s, k);
    }
    forall i | 0 <= i < |s.removals| && Active(s.removals[i]) ensures RemovalOK(s', s.removals[i]) {
      assert RemovalOK(s, s.removals[i]);
    }
  }

  lemma StructureBegin(s: State, c: Config, tx: Tx)
    requires StructureOK(s) && Enabled(s, Begin(tx))
    ensures StructureOK(Step(c, s, Begin(tx)))
  {
    hide UniqueIds;
    var s' := Step(c, s, Begin(tx));
    forall i | 0 <= i < |s'.threads| && s'.threads[i].stage.Pushed? ensures PushOK(s', s'.threads[i]) {
      assert PushOK(s, s.threads[i]);
    }
    forall k | k in s.txsMap ensures MappedOK(s', k) {
      assert MappedOK(s, k);
    }
  }

  lemma StructureFind(s: State, c: Config, tx: Tx, drop: bool)
    requires StructureOK(s) && Enabled(s, Find(tx, drop))
    ensures StructureOK(Step(c, s, Find(tx, drop)))
  {
    hide UniqueIds;
    var s' := Step(c, s, Find(tx, drop));
    assert MappedOK(s, tx);
    forall i | 0 <= i < |s'.removals| && Active(s'.removals[i]) ensures RemovalOK(s', s'.removals[i]) {
      assert i < |s.removals| ==> RemovalOK(s, s.removals[i]);
    }
    forall k | k in s.txsMap ensures MappedOK(s', k) {
      assert MappedOK(s, k);
      if Element(s.txsMap[k], k) !in s.list {
        StillTaken(s, s', k);
      }
    }
    forall i | 0 <= i < |s.threads| && s.threads[i].stage.Pushed? ensures PushOK(s', s.threads[i]) {
      assert PushOK(s, s.threads[i]);
    }
  }

  /** Whoever took a transaction away still does, unless the removal moved on. */
  lemma StillTaken(s: State, s': State, k: Tx)
    requires k in s.txsMap && k in s'.txsMap && s'.txsMap[k] == s.txsMap[k] && |s.removals| <= |s'.removals|
    requires forall i | 0 <= i < |s.removals| && TakesAway(s.removals[i], k, s.txsMap[k]) ::
      TakesAway(s'.removals[i], k, s.txsMap[k])
    requires exists i :: 0 <= i < |s.removals| && TakesAway(s.removals[i], k, s.txsMap[k])
    ensures exists i :: 0 <= i < |s'.removals| && TakesAway(s'.removals[i], k, s'.txsMap[k])
  {
    var i :| 0 <= i < |s.removals| && TakesAway(s.removals[i], k, s.txsMap[k]);
    assert TakesAway(s'.removals[i], k, s'.txsMap[k]);
  }

  lemma StructureUnlist(s: State, c: Config, r: nat)
    requires StructureOK(s) && Enabled(s, Unlist(r))
    ensures StructureOK(Step(c, s, Unlist(r)))
  {
    hide UniqueIds, Without, ListBytes;
    var s', e := Step(c, s, Unlist(r)), Element(s.removals[r].id, s.removals[r].tx);
    assert RemovalOK(s, s.removals[r]);
    WithoutFacts(c, s.list, s.nextId, e);
    forall i | 0 <= i < |s'.removals| && Active(s'.removals[i]) ensures RemovalOK(s', s'.removals[i]) {
      assert RemovalOK(s, s.removals[i]);
    }
    forall k | k in s.txsMap ensures MappedOK(s', k) {
      assert MappedOK(s, k);
      if Element(s.txsMap[k], k) == e {
        assert TakesAway(s'.removals[r], k, s.txsMap[k]);
      } else if Element(s.txsMap[k], k) !in s.list {
        StillTaken(s, s', k);
      }
    }
    forall i | 0 <= i < |s.threads| && s.threads[i].stage.Pushed? ensures PushOK(s', s.threads[i]) {
      assert PushOK(s, s.threads[i]);
    }
  }

  /** A removal past the list moves on; its transaction is out of the map when it leaves
      the map behind. */
  lemma StructureAdvance(s: State, s': State, r: nat, phase: Phase)
    requires StructureOK(s) && r < |s.removals| && !s.removals[r].phase.Found? && !phase.Found? && !phase.Unlisted?
    requires s'.list == s.list && s'.threads == s.threads && s'.nextId == s.nextId
    requires s'.txsMap == s.txsMap - (if s.removals[r].phase.Unlisted? then {s.removals[r].tx} else {})
    requires s'.removals == s.removals[r := s.removals[r].(phase := phase)]
    ensures StructureOK(s')
  {
    hide UniqueIds;
    forall i | 0 <= i < |s'.removals| && Active(s'.removals[i]) ensures RemovalOK(s', s'.removals[i]) {
      assert RemovalOK(s, s.removals[i]);
    }
    forall k | k in s'.txsMap ensures MappedOK(s', k) {
      assert MappedOK(s, k);
      if Element(s.txsMap[k], k) !in s.list {
        StillTaken(s, s', k);
      }
    }
    forall i | 0 <= i < |s.threads| && s.threads[i].stage.Pushed? ensures PushOK(s', s.threads[i]) {
      assert PushOK(s, s.threads[i]);
    }
  }

  lemma StructureLeave(s: State, c: Config, a: Action, r: nat)
    requires StructureOK(s) && Enabled(s, a) && a in {Unmap(r), Subtract(r), DropFromCache(r)}
    ensures StructureOK(Step(c, s, a))
  {
    hide Loses, StructureOK;
    assert s.txsMap - {} == s.txsMap;
    StructureAdvance(s, Step(c, s, a), r, Step(c, s, a).removals[r].phase);
  }

  lemma StructureCommit(s: State, c: Config, tx: Tx, valid: bool)
    requires StructureOK(s) && Enabled(s, Commit(tx, valid))
    ensures StructureOK(Step(c, s, Commit(tx, valid)))
  {
    hide UniqueIds, Without, ListBytes;
    var s' := Step(c, s, Commit(tx, valid));
    if tx in s.txsMap {
      assert MappedOK(s, tx);
      WithoutFacts(c, s.list, s.nextId, Element(s.txsMap[tx], tx));
    }
    forall k | k in s'.txsMap ensures MappedOK(s', k) {
      assert MappedOK(s, k);
    }
  }

  lemma StructureStep(c: Config, s: State, a: Action)
    requires StructureOK(s) && Enabled(s, a)
    ensures StructureOK(Step(c, s, a))
  {
    hide StructureOK, Step, Enabled;
    match a
    case Begin(tx) => StructureBegin(s, c, tx);
    case Find(tx, drop) => StructureFind(s, c, tx, drop);
    case Unlist(r) => StructureUnlist(s, c, r);
    case Unmap(r) => StructureLeave(s, c, a, r);
    case Subtract(r) => StructureLeave(s, c, a, r);
    case DropFromCache(r) => StructureLeave(s, c, a, r);
    case Commit(tx, valid) => StructureCommit(s, c, tx, valid);
    case Push(t) => StructurePush(s, c, t);
    case Store(t) => StructureStore(s, c, t);
    case _ => StructureCall(s, c, a, a.t);
  }

  // ----------------------------------------------------------------------- bijection

  /** While the cache has lost no pending transaction: every pending owner's transaction is
      in the cache, is its own alone, and is not in the map; every other listed element is
      the one the map has for its transaction. */
  ghost predicate MatchOK(c: Config, s: State) {
    && Cache.Distinct(s.cache) && |s.cache| <= c.cacheSize
    && (forall i | 0 <= i < |s.threads| && Owns(s.threads[i]) :: OwnerOK(s, i))
    && (forall i | 0 <= i < |s.threads| && s.threads[i].stage.Checked? && s.threads[i].tx !in s.cache ::
          Unclaimed(s, s.threads[i].tx))
    && (forall e | e in s.list :: ListedOK(s, e))
    && (forall i | 0 <= i < |s.removals| && Active(s.removals[i]) :: FoundOK(s.txsMap, s.removals[i]))
  }

  ghost predicate OwnerOK(s: State, i: nat)
    requires i < |s.threads|
  {
    var th := s.threads[i];
    && th.tx in s.cache && th.tx !in s.txsMap
    && (forall j | 0 <= j < |s.threads| && j != i && Owns(s.threads[j]) :: s.threads[j].tx != th.tx)
    && (forall e | e in s.list && e.tx == th.tx :: th.stage == Pushed(e.id))
  }

  /** A transaction neither in the map nor about to be. */
  ghost predicate Unclaimed(s: State, tx: Tx) {
    tx !in s.txsMap && forall j | 0 <= j < |s.threads| && Owns(s.threads[j]) :: s.threads[j].tx != tx
  }

  ghost predicate ListedOK(s: State, e: Element) {
    || (e.tx in s.txsMap && s.txsMap[e.tx] == e.id)
    || (exists i :: 0 <= i < |s.threads| && s.threads[i] == Thread(e.tx, Pushed(e.id)))
  }

  ghost predicate FoundOK(txsMap: map<Tx, nat>, removal: Removal) {
    removal.tx in txsMap && txsMap[removal.tx] == removal.id
  }

  /** Only these parts of the state matter. */
  lemma MatchSame(c: Config, s: State, s': State)
    requires MatchOK(c, s) && s'.cache == s.cache && s'.list == s.list && s'.txsMap == s.txsMap
    requires s'.threads == s.threads && s'.removals == s.removals
    ensures MatchOK(c, s')
  {
    forall i | 0 <= i < |s.threads| && Owns(s.threads[i]) ensures OwnerOK(s', i) {
      assert OwnerOK(s, i);
    }
    forall i | 0 <= i < |s.threads| && s.threads[i].stage.Checked? && s.threads[i].tx !in s.cache
      ensures Unclaimed(s', s.threads[i].tx)
    {
      assert Unclaimed(s, s.threads[i].tx);
    }
    forall e | e in s.list ensures ListedOK(s', e) {
      assert ListedOK(s, e);
    }
  }

  /** A call moves on without gaining or giving up a place in the list. */
  lemma MatchMove(c: Config, s: State, t: nat, stage: Stage)
    requires MatchOK(c, s) && t < |s.threads| && !s.threads[t].stage.Pushed? && !stage.Pushed? && !stage.Checked?
    requires Owns(Thread(s.threads[t].tx, stage)) ==> Owns(s.threads[t])
    ensures MatchOK(c, Move(s, t, stage))
  {
    hide Cache.Distinct, Owns;
    var s' := Move(s, t, stage);
    forall i | 0 <= i < |s'.threads| && Owns(s'.threads[i]) ensures OwnerOK(s', i) {
      assert OwnerOK(s, i);
      if i == t {
        assert forall e | e in s.list :: e.tx != s.threads[t].tx;
      }
    }
    forall i | 0 <= i < |s'.threads| && s'.threads[i].stage.Checked? && s'.threads[i].tx !in s.cache
      ensures Unclaimed(s', s'.threads[i].tx)
    {
      assert Unclaimed(s, s.threads[i].tx);
    }
    forall e | e in s.list ensures ListedOK(s', e) {
      assert ListedOK(s, e);
      if !(e.tx in s.txsMap && s.txsMap[e.tx] == e.id) {
        var i :| 0 <= i < |s.threads| && s.threads[i] == Thread(e.tx, Pushed(e.id));
        assert s'.threads[i] == Thread(e.tx, Pushed(e.id));
      }
    }
  }

  lemma MatchPlain(c: Config, s: State, a: Action, t: nat)
    requires MatchOK(c, s) && Enabled(s, a)
    requires a in {Abandon(t), Lock(t), LoadLen(t), LoadBytes(t), Decide(t), AppFails(t), Count(t), Release(t)}
    ensures MatchOK(c, Step(c, s, a))
  {
    hide MatchOK;
    var s' := Step(c, s, a);
    MatchMove(c, s, t, s'.threads[t].stage);
    MatchSame(c, Move(s, t, s'.threads[t].stage), s');
  }

  /** Its owner takes a transaction out of the cache as it leaves. */
  lemma MatchDrop(c: Config, s: State, t: nat, stage: Stage)
    requires MatchOK(c, s) && t < |s.threads| && Owns(s.threads[t]) && !s.threads[t].stage.Pushed?
    requires stage.Gone? || stage.Refused?
    ensures MatchOK(c, Move(s, t, stage).(cache := Cache.Drop(s.cache, s.threads[t].tx)))
  {
    assert !Owns(Thread(s.threads[t].tx, stage));
    hide Owns;
    MatchMove(c, s, t, stage);
    Cache.DropFacts(s.cache, s.threads[t].tx);
    hide Cache.Distinct, Cache.Drop;
    var moved := Move(s, t, stage);
    var s' := moved.(cache := Cache.Drop(s.cache, s.threads[t].tx));
    assert OwnerOK(s, t);
    forall i | 0 <= i < |s'.threads| && Owns(s'.threads[i]) ensures OwnerOK(s', i) {
      assert OwnerOK(moved, i);
      assert i != t && OwnerOK(s, i);
    }
    forall i | 0 <= i < |s'.threads| && s'.threads[i].stage.Checked? && s'.threads[i].tx !in s'.cache
      ensures Unclaimed(s', s'.threads[i].tx)
    {
      if s'.threads[i].tx in s.cache {
        assert s'.threads[i].tx == s.threads[t].tx;
        assert forall j | 0 <= j < |s'.threads| && Owns(s'.threads[j]) :: s'.threads[j].tx != s.threads[t].tx;
      } else {
        assert Unclaimed(moved, s'.threads[i].tx);
      }
    }
    forall e | e in s.list ensures ListedOK(s', e) {
      assert ListedOK(moved, e);
    }
  }

  /** The cache changes without losing a pending transaction. */
  lemma MatchCache(c: Config, s: State, cache: seq<Tx>)
    requires MatchOK(c, s) && Cache.Distinct(cache) && |cache| <= c.cacheSize && !Loses(s.threads, s.cache, cache)
    ensures MatchOK(c, s.(cache := cache))
  {
    hide Cache.Distinct, Owns;
    var s' := s.(cache := cache);
    forall i | 0 <= i < |s.threads| && Owns(s.threads[i]) ensures OwnerOK(s', i) {
      assert OwnerOK(s, i) && Pending(s.threads[i]);
    }
    forall i | 0 <= i < |s.threads| && s.threads[i].stage.Checked? && s.threads[i].tx !in cache
      ensures Unclaimed(s', s.threads[i].tx)
    {
      assert Pending(s.threads[i]);
      assert Unclaimed(s, s.threads[i].tx);
    }
    forall e | e in s.list ensures ListedOK(s', e) {
      assert ListedOK(s, e);
    }
  }

  /** A call becomes the owner of a transaction nobody claims. */
  lemma MatchOwn(c: Config, s: State, t: nat)
    requires MatchOK(c, s) && At(s, t, Checked) && s.threads[t].tx in s.cache && Unclaimed(s, s.threads[t].tx)
    ensures MatchOK(c, Move(s, t, Cached))
  {
    var s', tx := Move(s, t, Cached), s.threads[t].tx;
    forall e | e in s.list ensures e.tx != tx && ListedOK(s', e) {
      assert ListedOK(s, e);
      if !(e.tx in s.txsMap && s.txsMap[e.tx] == e.id) {
        var i :| 0 <= i < |s.threads| && s.threads[i] == Thread(e.tx, Pushed(e.id));
        assert s'.threads[i] == Thread(e.tx, Pushed(e.id)) && Owns(s.threads[i]);
      }
    }
    hide Cache.Distinct, Owns;
    forall i | 0 <= i < |s'.threads| && Owns(s'.threads[i]) ensures OwnerOK(s', i) {
      assert i != t ==> OwnerOK(s, i);
    }
    forall i | 0 <= i < |s'.threads| && s'.threads[i].stage.Checked? && s'.threads[i].tx !in s.cache
      ensures Unclaimed(s', s'.threads[i].tx)
    {
      assert i != t && Unclaimed(s, s.threads[i].tx);
    }
  }

  lemma MatchPushCache(c: Config, s: State, t: nat)
    requires MatchOK(c, s) && c.cacheSize > 0 && Enabled(s, PushCache(t)) && !Step(c, s, PushCache(t)).evicted
    ensures MatchOK(c, Step(c, s, PushCache(t)))
  {
    var tx := s.threads[t].tx;
    var cache := Cache.Pushed(s.cache, c.cacheSize, tx);
    Cache.PushedFacts(s.cache, c.cacheSize, tx);
    hide Cache.Pushed, Loses, Cache.Distinct, Owns;
    MatchCache(c, s, cache);
    if tx in s.cache {
      MatchMove(c, s.(cache := cache), t, Gone);
      MatchSame(c, Move(s.(cache := cache), t, Gone), Step(c, s, PushCache(t)));
    } else {
      assert Unclaimed(s, tx);
      MatchOwn(c, s.(cache := cache), t);
      MatchSame(c, Move(s.(cache := cache), t, Cached), Step(c, s, PushCache(t)));
    }
  }

  lemma MatchPush(c: Config, s: State, t: nat)
    requires MatchOK(c, s) && Enabled(s, Push(t))
    ensures MatchOK(c, Step(c, s, Push(t)))
  {
    hide Cache.Distinct;
    var s', tx := Step(c, s, Push(t)), s.threads[t].tx;
    assert OwnerOK(s, t);
    forall i | 0 <= i < |s'.threads| && Owns(s'.threads[i]) ensures OwnerOK(s', i) {
      assert OwnerOK(s, i);
    }
    forall i | 0 <= i < |s'.threads| && s'.threads[i].stage.Checked? && s'.threads[i].tx !in s.cache
      ensures Unclaimed(s', s'.threads[i].tx)
    {
      assert Unclaimed(s, s.threads[i].tx);
    }
    forall e | e in s'.list ensures ListedOK(s', e) {
      if e in s.list {
        assert ListedOK(s, e);
        if !(e.tx in s.txsMap && s.txsMap[e.tx] == e.id) {
          var i :| 0 <= i < |s.threads| && s.threads[i] == Thread(e.tx, Pushed(e.id));
          assert s'.threads[i] == Thread(e.tx, Pushed(e.id));
        }
      } else {
        assert s'.threads[t] == Thread(e.tx, Pushed(e.id));
      }
    }
  }

  lemma MatchStore(c: Config, s: State, t: nat)
    requires MatchOK(c, s) && Enabled(s, Store(t))
    ensures MatchOK(c, Step(c, s, Store(t)))
  {
    hide Cache.Distinct;
    var s', tx, id := Step(c, s, Store(t)), s.threads[t].tx, s.threads[t].stage.id;
    assert OwnerOK(s, t);
    forall i | 0 <= i < |s'.threads| && Owns(s'.threads[i]) ensures OwnerOK(s', i) {
      assert OwnerOK(s, i);
    }
    forall i | 0 <= i < |s'.threads| && s'.threads[i].stage.Checked? && s'.threads[i].tx !in s.cache
      ensures Unclaimed(s', s'.threads[i].tx)
    {
      assert Unclaimed(s, s.threads[i].tx);
    }
    forall e | e in s'.list ensures ListedOK(s', e) {
      assert ListedOK(s, e);
      if e.tx != tx && !(e.tx in s.txsMap && s.txsMap[e.tx] == e.id) {
        var i :| 0 <= i < |s.threads| && s.threads[i] == Thread(e.tx, Pushed(e.id));
        assert s'.threads[i] == Thread(e.tx, Pushed(e.id));
      }
    }
  }

  lemma MatchBegin(c: Config, s: State, tx: Tx)
    requires MatchOK(c, s) && Enabled(s, Begin(tx))
    ensures MatchOK(c, Step(c, s, Begin(tx)))
  {
    hide Cache.Distinct;
    var s' := Step(c, s, Begin(tx));
    forall i | 0 <= i < |s'.threads| && Owns(s'.threads[i]) ensures OwnerOK(s', i) {
      assert i < |s.threads| && OwnerOK(s, i);
    }
    forall i | 0 <= i < |s'.threads| && s'.threads[i].stage.Checked? && s'.threads[i].tx !in s.cache
      ensures Unclaimed(s', s'.threads[i].tx)
    {
      if i < |s.threads| {
        assert Unclaimed(s, s.threads[i].tx);
      } else {
        forall j | 0 <= j < |s.threads| && Owns(s.threads[j]) ensures s.threads[j].tx != tx {
          assert OwnerOK(s, j);
        }
      }
    }
    forall e | e in s.list ensures ListedOK(s', e) {
      assert ListedOK(s, e);
      if !(e.tx in s.txsMap && s.txsMap[e.tx] == e.id) {
        var i :| 0 <= i < |s.threads| && s.threads[i] == Thread(e.tx, Pushed(e.id));
        assert s'.threads[i] == Thread(e.tx, Pushed(e.id));
      }
    }
  }

  /** Elements leave the list, or a transaction whose element has left leaves the map. */
  lemma MatchShrink(c: Config, s: State, list: seq<Element>, gone: set<Tx>, removals: seq<Removal>)
    requires MatchOK(c, s) && (forall e | e in list :: e in s.list && e.tx !in gone)
    requires forall i | 0 <= i < |removals| && Active(removals[i]) :: FoundOK(s.txsMap - gone, removals[i])
    ensures MatchOK(c, s.(list := list, txsMap := s.txsMap - gone, removals := removals))
  {
    hide Cache.Distinct, Owns;
    var s' := s.(list := list, txsMap := s.txsMap - gone, removals := removals);
    forall i | 0 <= i < |s'.threads| && Owns(s'.threads[i]) ensures OwnerOK(s', i) {
      assert OwnerOK(s, i);
    }
    forall i | 0 <= i < |s'.threads| && s'.threads[i].stage.Checked? && s'.threads[i].tx !in s.cache
      ensures Unclaimed(s', s'.threads[i].tx)
    {
      assert Unclaimed(s, s.threads[i].tx);
    }
    forall e | e in list ensures ListedOK(s', e) {
      assert ListedOK(s, e);
      if !(e.tx in s.txsMap && s.txsMap[e.tx] == e.id) {
        var i :| 0 <= i < |s.threads| && s.threads[i] == Thread(e.tx, Pushed(e.id));
        assert s'.threads[i] == Thread(e.tx, Pushed(e.id));
      }
    }
  }

  lemma MatchFind(c: Config, s: State, tx: Tx, drop: bool)
    requires MatchOK(c, s) && Enabled(s, Find(tx, drop))
    ensures MatchOK(c, Step(c, s, Find(tx, drop)))
  {
    assert s.txsMap - {} == s.txsMap;
    MatchShrink(c, s, s.list, {}, Step(c, s, Find(tx, drop)).removals);
    hide MatchOK;
    MatchSame(c, s.(removals := Step(c, s, Find(tx, drop)).removals), Step(c, s, Find(tx, drop)));
  }

  lemma MatchUnlist(c: Config, s: State, r: nat)
    requires MatchOK(c, s) && StructureOK(s) && Enabled(s, Unlist(r))
    ensures MatchOK(c, Step(c, s, Unlist(r)))
  {
    hide Cache.Distinct, UniqueIds, Without, ListBytes, Owns, PushOK, MappedOK, OwnerOK, Unclaimed, ListedOK;
    assert RemovalOK(s, s.removals[r]);
    WithoutFacts(c, s.list, s.nextId, Element(s.removals[r].id, s.removals[r].tx));
    assert s.txsMap - {} == s.txsMap;
    MatchShrink(c, s, Step(c, s, Unlist(r)).list, {}, Step(c, s, Unlist(r)).removals);
  }

  lemma MatchUnmap(c: Config, s: State, r: nat)
    requires MatchOK(c, s) && StructureOK(s) && Enabled(s, Unmap(r))
    ensures MatchOK(c, Step(c, s, Unmap(r)))
  {
    hide Cache.Distinct, UniqueIds, Owns, PushOK, MappedOK, OwnerOK, Unclaimed, ListedOK;
    UnmapClean(c, s, r);
    var s', tx := Step(c, s, Unmap(r)), s.removals[r].tx;
    forall i | 0 <= i < |s'.removals| && Active(s'.removals[i]) ensures FoundOK(s.txsMap - {tx}, s'.removals[i]) {
      assert FoundOK(s.txsMap, s.removals[i]) && FoundOK(s.txsMap, s.removals[r]);
      assert i != r && s.removals[i].id != s.removals[r].id;
    }
    MatchShrink(c, s, s.list, {tx}, s'.removals);
  }

  lemma MatchSubtract(c: Config, s: State, r: nat)
    requires MatchOK(c, s) && Enabled(s, Subtract(r))
    ensures MatchOK(c, Step(c, s, Subtract(r)))
  {
    assert s.txsMap - {} == s.txsMap;
    MatchShrink(c, s, s.list, {}, Step(c, s, Subtract(r)).removals);
    hide MatchOK;
    MatchSame(c, s.(removals := Step(c, s, Subtract(r)).removals), Step(c, s, Subtract(r)));
  }

  lemma MatchDropFromCache(c: Config, s: State, r: nat)
    requires MatchOK(c, s) && Enabled(s, DropFromCache(r)) && !Step(c, s, DropFromCache(r)).evicted
    ensures MatchOK(c, Step(c, s, DropFromCache(r)))
  {
    hide Cache.Distinct, Cache.Drop, Owns, Loses, OwnerOK, Unclaimed, ListedOK;
    var s' := Step(c, s, DropFromCache(r));
    assert s.txsMap - {} == s.txsMap;
    Cache.DropFacts(s.cache, s.removals[r].tx);
    KeepsAll(s.threads, s.cache);
    MatchCache(c, s, s'.cache);
    MatchShrink(c, s.(cache := s'.cache), s.list, {}, s'.removals);
    hide MatchOK;
    MatchSame(c, s.(cache := s'.cache, removals := s'.removals), s');
  }

  lemma KeepsAll(threads: seq<Thread>, cache: seq<Tx>)
    ensures !Loses(threads, cache, cache)
  {
  }

  lemma UnmapClean(c: Config, s: State, r: nat)
    requires MatchOK(c, s) && StructureOK(s) && AtPhase(s, r, Unlisted)
    ensures forall e | e in s.list :: e.tx != s.removals[r].tx
  {
    hide UniqueIds, MappedOK, PushOK;
    assert RemovalOK(s, s.removals[r]) && FoundOK(s.txsMap, s.removals[r]);
    forall e | e in s.list ensures e.tx != s.removals[r].tx {
      assert ListedOK(s, e);
      if exists i :: 0 <= i < |s.threads| && s.threads[i] == Thread(e.tx, Pushed(e.id)) {
        var i :| 0 <= i < |s.threads| && s.threads[i] == Thread(e.tx, Pushed(e.id));
        assert OwnerOK(s, i);
      }
    }
  }

  lemma MatchSeen(c: Config, s: State, tx: Tx, valid: bool)
    requires MatchOK(c, s) && c.cacheSize > 0 && Enabled(s, Commit(tx, valid))
    ensures MatchOK(c, s.(cache := Step(c, s, Commit(tx, valid)).cache))
  {
    hide Cache.Distinct, Cache.Drop, Cache.Pushed, Without, OwnerOK, Unclaimed, ListedOK, ListBytes;
    Cache.DropFacts(s.cache, tx);
    Cache.PushedFacts(s.cache, c.cacheSize, tx);
    var cache := Step(c, s, Commit(tx, valid)).cache;
    assert !Loses(s.threads, s.cache, cache);
    assert Cache.Distinct(cache) && |cache| <= c.cacheSize;
    hide Loses, Step;
    MatchCache(c, s, cache);
  }

  lemma MatchCommit(c: Config, s: State, tx: Tx, valid: bool)
    requires MatchOK(c, s) && StructureOK(s) && c.cacheSize > 0 && Enabled(s, Commit(tx, valid))
    ensures MatchOK(c, Step(c, s, Commit(tx, valid)))
  {
    var s' := Step(c, s, Commit(tx, valid));
    hide Cache.Distinct, Cache.Drop, Cache.Pushed, UniqueIds, Without, ListBytes, PushOK, OwnerOK, Unclaimed;
    MatchSeen(c, s, tx, valid);
    if tx in s.txsMap {
      WithoutFacts(c, s.list, s.nextId, Element(s.txsMap[tx], tx));
      forall e | e in s'.list ensures e in s.list && e.tx != tx {
        assert ListedOK(s, e);
      }
      MatchShrink(c, s.(cache := s'.cache), s'.list, {tx}, s.removals);
    } else {
      assert s'.txsMap == s.txsMap;
    }
    hide MatchOK;
    MatchSame(c, s.(cache := s'.cache, list := s'.list, txsMap := s'.txsMap), s');
  }

  /** A committed transaction leaves the map, and the element the map had for it leaves the
      list; all others stay, in their order, and the counter loses its size. */
  lemma CommitRemoves(c: Config, s: State, tx: Tx, valid: bool)
    requires StructureOK(s) && Enabled(s, Commit(tx, valid))
    ensures var s' := Step(c, s, Commit(tx, valid));
      && s'.txsMap == s.txsMap - {tx}
      && (forall e :: e in s'.list <==> e in s.list && !(tx in s.txsMap && e == Element(s.txsMap[tx], tx)))
      && InOrder(s'.list, s.list)
      && s'.txsBytes == s.txsBytes - (if tx in s.txsMap then c.txSize(tx) else 0)
      && s'.threads == s.threads && s'.reserved == s.reserved && s'.reservedBytes == s.reservedBytes
  {
    hide UniqueIds, Without, ListBytes;
    var s' := Step(c, s, Commit(tx, valid));
    if tx in s.txsMap {
      assert MappedOK(s, tx);
      WithoutFacts(c, s.list, s.nextId, Element(s.txsMap[tx], tx));
      WithoutOrder(s.list, s.txsMap[tx]);
    } else {
      assert s.txsMap - {tx} == s.txsMap;
      SameOrder(s.list);
    }
  }

  /** While list and map match, nothing of it is left in the list; and the cache has it if
      it was valid, keeps or loses it otherwise as configured, and has nothing new besides. */
  lemma CommitClears(c: Config, s: State, tx: Tx, valid: bool)
    requires MatchOK(c, s) && StructureOK(s) && c.cacheSize > 0 && Enabled(s, Commit(tx, valid))
    ensures var s' := Step(c, s, Commit(tx, valid));
      && (forall e | e in s'.list :: e.tx != tx)
      && (valid ==> tx in s'.cache)
      && (!valid ==> (tx in s'.cache <==> c.keepInvalid && tx in s.cache))
      && (forall k | k in s'.cache && k != tx :: k in s.cache)
      && (!valid ==> forall k | k in s.cache && k != tx :: k in s'.cache)
  {
    hide UniqueIds, Without, ListBytes, Cache.Pushed, Cache.Drop, Cache.Distinct;
    CommitRemoves(c, s, tx, valid);
    Cache.DropFacts(s.cache, tx);
    Cache.PushedFacts(s.cache, c.cacheSize, tx);
    var s' := Step(c, s, Commit(tx, valid));
    forall e | e in s'.list ensures e.tx != tx {
      assert ListedOK(s, e);
    }
  }

  lemma MatchStep(c: Config, s: State, a: Action)
    requires MatchOK(c, s) && StructureOK(s) && c.cacheSize > 0 && Enabled(s, a) && !Step(c, s, a).evicted
    ensures MatchOK(c, Step(c, s, a))
  {
    hide MatchOK, StructureOK, Cache.Drop;
    match a
    case Begin(tx) => MatchBegin(c, s, tx);
    case PushCache(t) => MatchPushCache(c, s, t);
    case Push(t) => MatchPush(c, s, t);
    case Store(t) => MatchStore(c, s, t);
    case GiveUp(t) =>
      MatchDrop(c, s, t, Gone);
    case Refuse(t) =>
      if c.keepInvalid {
        MatchMove(c, s, t, Refused);
      } else {
        MatchDrop(c, s, t, Refused);
      }
    case Commit(tx, valid) => MatchCommit(c, s, tx, valid);
    case Find(tx, drop) => MatchFind(c, s, tx, drop);
    case Unlist(r) => MatchUnlist(c, s, r);
    case Unmap(r) => MatchUnmap(c, s, r);
    case Subtract(r) => MatchSubtract(c, s, r);
    case DropFromCache(r) => MatchDropFromCache(c, s, r);
    case _ => MatchPlain(c, s, a, a.t);
  }

  /** A transaction that found no room, or was refused, leaves the cache and may come
      again, unless invalid ones are to be kept there. */
  lemma MayComeAgain(c: Config, s: State, a: Action)
    requires MatchOK(c, s) && Enabled(s, a) && (a.GiveUp? || (a.Refuse? && !c.keepInvalid))
    ensures s.threads[a.t].tx in s.cache && s.threads[a.t].tx !in Step(c, s, a).cache
    ensures forall k | k != s.threads[a.t].tx :: k in s.cache <==> k in Step(c, s, a).cache
  {
    assert OwnerOK(s, a.t);
    Cache.DropFacts(s.cache, s.threads[a.t].tx);
  }

  /** The transaction an action is about. */
  ghost function Concerned(s: State, a: Action): Tx
    requires Enabled(s, a)
  {
    match a
    case Begin(tx) => tx
    case Find(tx, _) => tx
    case Commit(tx, _) => tx
    case Unlist(r) => s.removals[r].tx
    case Unmap(r) => s.removals[r].tx
    case Subtract(r) => s.removals[r].tx
    case DropFromCache(r) => s.removals[r].tx
    case _ => s.threads[a.t].tx
  }

  /** It finds no room, is refused or found invalid and these are not kept, or is removed
      from the pool with the order to forget it. */
  ghost predicate Forgets(c: Config, s: State, a: Action)
    requires Enabled(s, a)
  {
    || a.GiveUp? || (a.DropFromCache? && s.removals[a.r].drop)
    || (!c.keepInvalid && (a.Refuse? || (a.Commit? && !a.valid)))
  }

  /** What every action does to the cache: these forget just their transaction; a new call
      and a valid commit enter theirs, at the cost of others only if it is new and the cache
      is full; all others change nothing. A cache of no size never has anything. */
  lemma CacheChanges(c: Config, s: State, a: Action)
    requires Enabled(s, a) && Cache.Distinct(s.cache)
    ensures var s', tx := Step(c, s, a), Concerned(s, a);
      if Forgets(c, s, a) then forall k :: k in s'.cache <==> k in s.cache && k != tx
      else if c.cacheSize > 0 && (a.PushCache? || (a.Commit? && a.valid)) then
        && tx in s'.cache && (forall k | k in s'.cache :: k in s.cache || k == tx)
        && (tx in s.cache || |s.cache| < c.cacheSize ==> forall k | k in s.cache :: k in s'.cache)
      else s'.cache == s.cache
  {
    hide Cache.Distinct, Cache.Drop, Without;
    Cache.DropFacts(s.cache, Concerned(s, a));
  }

  /** The cache has nothing twice, and no more than its size. */
  ghost predicate CacheOK(c: Config, s: State) {
    Cache.Distinct(s.cache) && |s.cache| <= if c.cacheSize > 0 then c.cacheSize else 0
  }

  lemma CacheStep(c: Config, s: State, a: Action)
    requires CacheOK(c, s) && Enabled(s, a)
    ensures CacheOK(c, Step(c, s, a))
  {
    hide Cache.Distinct, Cache.Drop, Cache.Pushed, Without;
    Cache.DropFacts(s.cache, Concerned(s, a));
    if c.cacheSize > 0 {
      Cache.PushedFacts(s.cache, c.cacheSize, Concerned(s, a));
    }
  }

  // ------------------------------------------------------------------------ theorems

  /** Over every run: the counters add up, and the list with what is on its way never
      exceeds the configured number and bytes; and while the cache has lost no pending
      transaction, list and map agree. */
  lemma {:induction false} RunOK(c: Config, states: seq<State>, actions: seq<Action>)
    requires IsRun(c, states, actions)
    ensures var s := states[|actions|];
      && CapacityOK(c, s) && StructureOK(s) && CacheOK(c, s)
      && (c.cacheSize > 0 && !s.evicted ==> MatchOK(c, s))
    decreases |actions|
  {
    hide CapacityOK, StructureOK, MatchOK, CacheOK, Step, Enabled, Init;
    var n := |actions|;
    if n == 0 {
      InitOK(c);
    } else {
      RunOK(c, states[..n], actions[..n - 1]);
      var s, a := states[n - 1], actions[n - 1];
      assert Enabled(s, a) && states[n] == Step(c, s, a);
      CapacityStep(c, s, a);
      StructureStep(c, s, a);
      CacheStep(c, s, a);
      EvictedStays(c, s, a);
      if c.cacheSize > 0 && !states[n].evicted {
        MatchStep(c, s, a);
      }
    }
  }

  lemma InitOK(c: Config)
    ensures CapacityOK(c, Init()) && StructureOK(Init()) && CacheOK(c, Init())
    ensures c.cacheSize > 0 ==> MatchOK(c, Init())
  {
  }

  lemma EvictedStays(c: Config, s: State, a: Action)
    requires Enabled(s, a)
    ensures s.evicted ==> Step(c, s, a).evicted
  {
    hide Loses;
  }

  /** What that comes to when nothing is under way. */
  lemma Quiescent(c: Config, states: seq<State>, actions: seq<Action>)
    requires IsRun(c, states, actions) && Quiet(states[|actions|])
    ensures var s := states[|actions|];
      && |s.list| <= c.size && ListBytes(c, s.list) <= c.maxTxsBytes
      && s.txsBytes == ListBytes(c, s.list)
      && s.reserved == s.leaked && s.reservedBytes == s.leakedBytes
      && (c.cacheSize > 0 && !s.evicted ==>
            && (forall e | e in s.list :: e.tx in s.txsMap && s.txsMap[e.tx] == e.id)
            && (forall k | k in s.txsMap :: Element(s.txsMap[k], k) in s.list)
            && (forall i, j | 0 <= i < j < |s.list| :: s.list[i].tx != s.list[j].tx))
  {
    RunOK(c, states, actions);
    var s := states[|actions|];
    QuietSums(c, s.threads);
    NoDebts(c, s.removals);
    hide CapacityOK, Sum, ListBytes;
    if c.cacheSize > 0 && !s.evicted {
      forall e | e in s.list ensures e.tx in s.txsMap && s.txsMap[e.tx] == e.id {
        assert ListedOK(s, e);
      }
      forall i, j | 0 <= i < j < |s.list| ensures s.list[i].tx != s.list[j].tx {
        assert s.list[i] in s.list && s.list[j] in s.list;
      }
    }
  }

  lemma {:induction false} NoDebts(c: Config, removals: seq<Removal>)
    requires forall i | 0 <= i < |removals| :: removals[i].phase.Finished?
    ensures Debts(c, removals) == 0
  {
    if removals != [] {
      NoDebts(c, removals[..|removals| - 1]);
    }
  }

  lemma {:induction false} QuietSums(c: Config, threads: seq<Thread>)
    requires forall i | 0 <= i < |threads| :: threads[i].stage.Gone?
    ensures forall m :: Sum(c, m, threads) == 0
  {
    if threads != [] {
      QuietSums(c, threads[..|threads| - 1]);
    }
  }

  // ------------------------------------------------------------- lost reservations

  function Failures(actions: seq<Action>): nat {
    if actions == [] then 0
    else Failures(actions[..|actions| - 1]) + if actions[|actions| - 1].AppFails? then 1 else 0
  }

  lemma StepLeaks(c: Config, s: State, a: Action)
    requires Enabled(s, a)
    ensures Step(c, s, a).leaked == s.leaked + if a.AppFails? then 1 else 0
  {
    hide Loses, Remember, Without, Cache.Drop;
  }

  lemma StepLens(c: Config, s: State, a: Action, t: nat)
    requires Enabled(s, a) && t < |Step(c, s, a).threads|
    requires t < |s.threads| && (s.threads[t].stage.ReadLen? || s.threads[t].stage.ReadBoth?) ==>
      s.threads[t].stage.len >= 0
    ensures var stage := Step(c, s, a).threads[t].stage;
      stage.ReadLen? || stage.ReadBoth? ==> stage.len >= 0
  {
    hide Loses, Remember, Without, Cache.Drop;
  }

  /** Every call whose application connection failed has left one reservation behind. */
  lemma {:induction false} LeakedCounts(c: Config, states: seq<State>, actions: seq<Action>)
    requires IsRun(c, states, actions)
    ensures states[|actions|].leaked == Failures(actions)
    decreases |actions|
  {
    hide Step, Enabled;
    var n := |actions|;
    if n > 0 {
      LeakedCounts(c, states[..n], actions[..n - 1]);
      assert Enabled(states[n - 1], actions[n - 1]) && states[n] == Step(c, states[n - 1], actions[n - 1]);
      StepLeaks(c, states[n - 1], actions[n - 1]);
    }
  }

  /** Once as many have been left behind as the mempool has places, no call finds room. */
  lemma NoRoomLeft(c: Config, states: seq<State>, actions: seq<Action>, t: nat)
    requires IsRun(c, states, actions) && Failures(actions) >= c.size
    requires Enabled(states[|actions|], Decide(t))
    ensures At(Step(c, states[|actions|], Decide(t)), t, Full)
  {
    RunOK(c, states, actions);
    LeakedCounts(c, states, actions);
    LensRead(c, states, actions, t);
    hide StructureOK, MatchOK, LockOK, Bounded;
  }

  /** A length once read is not negative. */
  lemma {:induction false} LensRead(c: Config, states: seq<State>, actions: seq<Action>, t: nat)
    requires IsRun(c, states, actions) && t < |states[|actions|].threads|
    ensures var stage := states[|actions|].threads[t].stage;
      stage.ReadLen? || stage.ReadBoth? ==> stage.len >= 0
    decreases |actions|
  {
    hide Step, Enabled;
    var n := |actions|;
    if n > 0 {
      assert Enabled(states[n - 1], actions[n - 1]) && states[n] == Step(c, states[n - 1], actions[n - 1]);
      if t < |states[n - 1].threads| {
        LensRead(c, states[..n], actions[..n - 1], t);
      }
      StepLens(c, states[n - 1], actions[n - 1], t);
    }
  }

  /** One call whose application fails: at rest nothing is listed, and one place is gone. */
  lemma LeakHappens(c: Config, tx: Tx) returns (states: seq<State>, actions: seq<Action>)
    requires c.size > 0 && c.txSize(tx) <= c.maxTxsBytes
    ensures IsRun(c, states, actions) && Quiet(states[|actions|])
    ensures states[|actions|].reserved == 1 && states[|actions|].list == []
  {
    hide Loses, IsRun, Cache.Pushed;
    var first := Thread(tx, Checked);
    states, actions := RunNothing(c);
    states, actions := RunMore(c, states, actions, Begin(tx));
    assert states[|actions|].threads == [first];
    states, actions := RunMore(c, states, actions, PushCache(0));
    assert states[|actions|].threads == [first.(stage := Cached)];
    states, actions := RunMore(c, states, actions, Lock(0));
    states, actions := RunMore(c, states, actions, LoadLen(0));
    states, actions := RunMore(c, states, actions, LoadBytes(0));
    assert states[|actions|].threads == [first.(stage := ReadBoth(0, 0))];
    states, actions := RunMore(c, states, actions, Decide(0));
    assert states[|actions|].threads == [first.(stage := Reserved)];
    states, actions := RunMore(c, states, actions, AppFails(0));
    assert states[|actions|].threads == [first.(stage := Gone)];
  }

  lemma RunNothing(c: Config) returns (states: seq<State>, actions: seq<Action>)
    ensures IsRun(c, states, actions) && |states| == |actions| + 1 && states[|actions|] == Init()
  {
    states, actions := [Init()], [];
  }

  lemma RunMore(c: Config, states: seq<State>, actions: seq<Action>, a: Action)
    returns (states': seq<State>, actions': seq<Action>)
    requires IsRun(c, states, actions) && |states| == |actions| + 1 && Enabled(states[|actions|], a)
    ensures IsRun(c, states', actions') && |states'| == |actions'| + 1
    ensures states'[|actions'|] == Step(c, states[|actions|], a)
  {
    hide Step, Enabled, Init;
    states', actions' := states + [Step(c, states[|actions|], a)], actions + [a];
  }

  // ------------------------------------------------------- calls that nothing interrupts

  ghost predicate Leads(c: Config, s: State, actions: seq<Action>, s': State)
    decreases |actions|
  {
    if actions == [] then s' == s
    else Enabled(s, actions[0]) && Leads(c, Step(c, s, actions[0]), actions[1..], s')
  }

  lemma {:induction false} LeadsOn(c: Config, s: State, actions: seq<Action>, s': State, a: Action)
    requires Leads(c, s, actions, s') && Enabled(s', a)
    ensures Leads(c, s, actions + [a], Step(c, s', a))
    decreases |actions|
  {
    hide Step, Enabled;
    if actions == [] {
      assert Leads(c, Step(c, s', a), [], Step(c, s', a));
    } else {
      LeadsOn(c, Step(c, s, actions[0]), actions[1..], s', a);
      assert (actions + [a])[1..] == actions[1..] + [a];
    }
  }

  lemma LeadsNowhere(c: Config, s: State)
    ensures Leads(c, s, [], s)
  {
  }

  /** There is room for the transaction beside what is there and what is reserved. */
  ghost predicate HasRoom(c: Config, s: State, tx: Tx) {
    |s.list| + s.reserved < c.size && c.txSize(tx) + s.reservedBytes + s.txsBytes <= c.maxTxsBytes
  }

  lemma LocksAlone(c: Config, s: State, tx: Tx) returns (actions: seq<Action>, s': State)
    requires tx !in s.txsMap && tx !in s.cache && s.mutex == FREE
    ensures Leads(c, s, actions, s')
    ensures s' == s.(cache := Remember(c, s.cache, tx), evicted := s'.evicted,
                     threads := s.threads + [Thread(tx, Locked)], mutex := |s.threads|)
  {
    hide Loses, Leads, Remember;
    var t := |s.threads|;
    actions, s' := [], s;
    LeadsNowhere(c, s);
    actions, s' := LeadOn(c, s, actions, s', Begin(tx));
    actions, s' := LeadOn(c, s, actions, s', PushCache(t));
    assert s'.threads == s.threads + [Thread(tx, Cached)];
    actions, s' := LeadOn(c, s, actions, s', Lock(t));
    assert s'.threads == s.threads + [Thread(tx, Locked)];
  }

  /** Up to the decision: a new transaction, not in the cache, is counted as on its way iff
      there is room for it. */
  lemma DecidesAlone(c: Config, s: State, tx: Tx) returns (actions: seq<Action>, s': State)
    requires tx !in s.txsMap && tx !in s.cache && s.mutex == FREE
    ensures Leads(c, s, actions, s') && s'.cache == Remember(c, s.cache, tx)
    ensures s' == s.(cache := s'.cache, evicted := s'.evicted, threads := s'.threads,
                     reserved := s'.reserved, reservedBytes := s'.reservedBytes)
    ensures s'.threads == s.threads + [Thread(tx, if HasRoom(c, s, tx) then Reserved else Full)]
    ensures s'.reserved == s.reserved + if HasRoom(c, s, tx) then 1 else 0
    ensures s'.reservedBytes == s.reservedBytes + if HasRoom(c, s, tx) then c.txSize(tx) else 0
  {
    hide Loses, Leads, Remember;
    var t := |s.threads|;
    actions, s' := LocksAlone(c, s, tx);
    actions, s' := LeadOn(c, s, actions, s', LoadLen(t));
    actions, s' := LeadOn(c, s, actions, s', LoadBytes(t));
    assert s'.threads == s.threads + [Thread(tx, ReadBoth(|s.list|, s.txsBytes))];
    actions, s' := LeadOn(c, s, actions, s', Decide(t));
  }

  lemma LeadOn(c: Config, s: State, actions: seq<Action>, s': State, a: Action)
    returns (actions': seq<Action>, s'': State)
    requires Leads(c, s, actions, s') && Enabled(s', a)
    ensures Leads(c, s, actions', s'') && s'' == Step(c, s', a)
  {
    LeadsOn(c, s, actions, s', a);
    actions', s'' := actions + [a], Step(c, s', a);
  }

  lemma StoresAlone(c: Config, s: State, tx: Tx) returns (actions: seq<Action>, s': State)
    requires tx !in s.txsMap && tx !in s.cache && s.mutex == FREE && HasRoom(c, s, tx)
    ensures Leads(c, s, actions, s') && s'.cache == Remember(c, s.cache, tx)
    ensures s' == s.(list := s.list + [Element(s.nextId, tx)], txsMap := s.txsMap[tx := s.nextId],
                     threads := s.threads + [Thread(tx, Stored)], nextId := s.nextId + 1,
                     reserved := s.reserved + 1, reservedBytes := s.reservedBytes + c.txSize(tx),
                     cache := s'.cache, evicted := s'.evicted)
  {
    hide Loses, Leads, Remember, HasRoom;
    var t := |s.threads|;
    actions, s' := DecidesAlone(c, s, tx);
    actions, s' := LeadOn(c, s, actions, s', Push(t));
    assert s'.threads == s.threads + [Thread(tx, Pushed(s.nextId))];
    actions, s' := LeadOn(c, s, actions, s', Store(t));
    assert s'.threads == s.threads + [Thread(tx, Stored)];
  }

  /** A call with room for its transaction, which the application accepts, adds it to list,
      map and bytes, and gives back what it reserved. */
  lemma AddsAlone(c: Config, s: State, tx: Tx) returns (actions: seq<Action>, s': State)
    requires tx !in s.txsMap && tx !in s.cache && s.mutex == FREE && HasRoom(c, s, tx)
    ensures Leads(c, s, actions, s') && s'.cache == Remember(c, s.cache, tx)
    ensures s' == s.(list := s.list + [Element(s.nextId, tx)], txsMap := s.txsMap[tx := s.nextId],
                     txsBytes := s.txsBytes + c.txSize(tx), threads := s.threads + [Thread(tx, Gone)],
                     nextId := s.nextId + 1, cache := s'.cache, evicted := s'.evicted)
  {
    hide Loses, Leads, Remember;
    var t := |s.threads|;
    actions, s' := StoresAlone(c, s, tx);
    actions, s' := LeadOn(c, s, actions, s', Count(t));
    assert s'.threads == s.threads + [Thread(tx, Counted)];
    actions, s' := LeadOn(c, s, actions, s', Release(t));
    assert s'.threads == s.threads + [Thread(tx, Gone)];
  }

  /** One without room, or that the application refuses, leaves nothing but what the cache
      keeps of it. */
  lemma RefusedAlone(c: Config, s: State, tx: Tx) returns (actions: seq<Action>, s': State)
    requires tx !in s.txsMap && tx !in s.cache && s.mutex == FREE
    ensures Leads(c, s, actions, s')
    ensures s' == s.(threads := s.threads + [Thread(tx, Gone)], cache := s'.cache, evicted := s'.evicted)
    ensures s'.cache == if HasRoom(c, s, tx) && c.keepInvalid then Remember(c, s.cache, tx)
                        else Cache.Drop(Remember(c, s.cache, tx), tx)
  {
    hide Loses, Leads, Remember, Cache.Drop;
    var t := |s.threads|;
    actions, s' := DecidesAlone(c, s, tx);
    if HasRoom(c, s, tx) {
      actions, s' := LeadOn(c, s, actions, s', Refuse(t));
      assert s'.threads == s.threads + [Thread(tx, Refused)];
      actions, s' := LeadOn(c, s, actions, s', Release(t));
    } else {
      actions, s' := LeadOn(c, s, actions, s', GiveUp(t));
    }
    assert s'.threads == s.threads + [Thread(tx, Gone)];
  }

  lemma UnlistsAlone(c: Config, s: State, tx: Tx, drop: bool) returns (actions: seq<Action>, s': State)
    requires tx in s.txsMap && Removable(s.removals, s.txsMap[tx])
    ensures Leads(c, s, actions, s')
    ensures s' == s.(list := Without(s.list, s.txsMap[tx]),
                     removals := s.removals + [Removal(tx, s.txsMap[tx], drop, Unlisted)])
  {
    hide Loses, Leads, Without;
    var r := |s.removals|;
    actions, s' := [], s;
    LeadsNowhere(c, s);
    actions, s' := LeadOn(c, s, actions, s', Find(tx, drop));
    actions, s' := LeadOn(c, s, actions, s', Unlist(r));
    assert s'.removals == s.removals + [Removal(tx, s.txsMap[tx], drop, Unlisted)];
  }

  lemma PhasesAlone(c: Config, s: State, tx: Tx, drop: bool) returns (actions: seq<Action>, s': State)
    requires tx in s.txsMap && Removable(s.removals, s.txsMap[tx])
    ensures Leads(c, s, actions, s')
    ensures s' == s.(list := Without(s.list, s.txsMap[tx]), txsMap := s.txsMap - {tx},
                     txsBytes := s.txsBytes - c.txSize(tx),
                     removals := s.removals + [Removal(tx, s.txsMap[tx], drop, Subtracted)])
  {
    hide Loses, Leads, Without;
    var r := |s.removals|;
    actions, s' := UnlistsAlone(c, s, tx, drop);
    actions, s' := LeadOn(c, s, actions, s', Unmap(r));
    actions, s' := LeadOn(c, s, actions, s', Subtract(r));
    assert s'.removals == s.removals + [Removal(tx, s.txsMap[tx], drop, Subtracted)];
  }

  /** A removal takes the transaction out of list, map and bytes, and out of the cache if it
      is told to. */
  lemma RemovesAlone(c: Config, s: State, tx: Tx, drop: bool) returns (actions: seq<Action>, s': State)
    requires tx in s.txsMap && Removable(s.removals, s.txsMap[tx]) && StructureOK(s)
    ensures Leads(c, s, actions, s')
    ensures s' == s.(list := s'.list, txsMap := s.txsMap - {tx}, txsBytes := s.txsBytes - c.txSize(tx),
                     removals := s.removals + [Removal(tx, s.txsMap[tx], drop, Finished)],
                     cache := if drop then Cache.Drop(s.cache, tx) else s.cache, evicted := s'.evicted)
    ensures InOrder(s'.list, s.list) && forall e :: e in s'.list <==> e in s.list && e != Element(s.txsMap[tx], tx)
  {
    hide Loses, Leads, Cache.Drop, Without, UniqueIds, ListBytes, StructureOK;
    assert MappedOK(s, tx) && UniqueIds(s.list, s.nextId) by { StructureMapped(s, tx); }
    WithoutFacts(c, s.list, s.nextId, Element(s.txsMap[tx], tx));
    WithoutOrder(s.list, s.txsMap[tx]);
    actions, s' := PhasesAlone(c, s, tx, drop);
    actions, s' := LeadOn(c, s, actions, s', DropFromCache(|s.removals|));
    assert s'.removals == s.removals + [Removal(tx, s.txsMap[tx], drop, Finished)];
  }

  lemma StructureMapped(s: State, tx: Tx)
    requires StructureOK(s) && tx in s.txsMap
    ensures MappedOK(s, tx) && UniqueIds(s.list, s.nextId)
  {
  }
}
