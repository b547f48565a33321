/** The evidence pool: pending evidence waits to be proposed, committed evidence is never
    taken up again, and expired evidence is pruned oldest first. */
module EvidencePool {
  import opened Collections

  datatype Evidence = Evidence(height: int, time: int, hash: int, lightAttack: bool)

  datatype Key = Key(height: int, hash: int)

  function KeyOf(e: Evidence): Key {
    Key(e.height, e.hash)
  }

  /** The order of the keys in the database: by height, then by hash. */
  predicate Before(a: Key, b: Key) {
    a.height < b.height || (a.height == b.height && a.hash < b.hash)
  }

  /** The part of the node's state the pool looks at. */
  datatype State = State(lastBlockHeight: int, lastBlockTime: int, maxAgeNumBlocks: int, maxAgeDuration: int)

  const SECOND := 1_000_000_000

  const COUNTER_SIZE := 0x1_0000_0000

  datatype VotePair = VotePair(height: int, hash: int)

  /** The counter counts all pending evidence, and rewritten evidence again. It wraps. */
  ghost predicate CounterShows(counter: int, pending: map<Key, Evidence>, rewrites: nat) {
    counter == (|pending| + rewrites) % COUNTER_SIZE
  }

  lemma CounterUp(counter: int, pending: map<Key, Evidence>, rewrites: nat, k: Key, e: Evidence)
    requires CounterShows(counter, pending, rewrites)
    ensures CounterShows((counter + 1) % COUNTER_SIZE, pending[k := e], rewrites + if k in pending then 1 else 0)
  {
  }

  lemma CounterDown(counter: int, pending: map<Key, Evidence>, rewrites: nat, k: Key)
    requires CounterShows(counter, pending, rewrites) && k in pending
    ensures CounterShows((counter - 1) % COUNTER_SIZE, pending - {k}, rewrites)
  {
    assert (pending - {k}).Keys == pending.Keys - {k};
  }

  lemma CounterAnew(pending: map<Key, Evidence>)
    ensures CounterShows(|pending| % COUNTER_SIZE, pending, 0)
  {
  }

  lemma CounterPositive(counter: int, pending: map<Key, Evidence>, rewrites: nat)
    requires CounterShows(counter, pending, rewrites) && |pending| + rewrites < COUNTER_SIZE
    ensures pending != map[] ==> counter > 0
  {
  }

  lemma FewerLeft(before: map<Key, Evidence>, after: map<Key, Evidence>)
    requires after.Keys <= before.Keys
    ensures |after| <= |before|
  {
    assert before.Keys == after.Keys + (before.Keys - after.Keys);
  }

  predicate Expired(s: State, height: int, time: int) {
    s.lastBlockHeight - height > s.maxAgeNumBlocks && s.lastBlockTime - time > s.maxAgeDuration
  }

  /** Block times do not decrease with height. */
  ghost predicate TimesGrow(blockTime: int -> int) {
    forall a, b | a <= b :: blockTime(a) <= blockTime(b)
  }

  /** An item no older in height and time than one that has not expired has not either. */
  lemma ExpiryFollowsAge(s: State, blockTime: int -> int, a: int, b: int)
    requires TimesGrow(blockTime) && a <= b && !Expired(s, a, blockTime(a))
    ensures !Expired(s, b, blockTime(b))
  {
    assert blockTime(a) <= blockTime(b);
  }

  /** So when the first of an ordered list has not expired, none has. */
  lemma OthersFresh(s: State, blockTime: int -> int, keys: seq<Key>)
    requires TimesGrow(blockTime) && keys != [] && !Expired(s, keys[0].height, blockTime(keys[0].height))
    requires InOrder(keys)
    ensures forall k | k in keys :: !Expired(s, k.height, blockTime(k.height))
  {
    forall k | k in keys ensures !Expired(s, k.height, blockTime(k.height)) {
      ExpiryFollowsAge(s, blockTime, keys[0].height, k.height);
    }
  }

  ghost predicate InOrder(keys: seq<Key>) {
    forall i, j | 0 <= i < j < |keys| :: Before(keys[i], keys[j])
  }

  /** The first `i` keys are gone: all of them expired, their hashes noted. */
  ghost predicate Swept(before: map<Key, Evidence>, after: map<Key, Evidence>, keys: seq<Key>, i: nat,
                        hashes: set<int>, s: State)
  {
    && i <= |keys| && InOrder(keys) && (forall k :: k in before <==> k in keys)
    && (forall k :: k in after <==> k in keys[i..]) && (forall k | k in after :: k in before && after[k] == before[k])
    && (forall j | 0 <= j < i ::
          keys[j] in before && keys[j].hash in hashes && Expired(s, keys[j].height, before[keys[j]].time))
  }

  lemma SweepNone(before: map<Key, Evidence>, keys: seq<Key>, s: State)
    requires InOrder(keys) && forall k :: k in before <==> k in keys
    ensures Swept(before, before, keys, 0, {}, s)
  {
    assert keys[0..] == keys;
  }

  lemma SweepOne(before: map<Key, Evidence>, after: map<Key, Evidence>, keys: seq<Key>, i: nat,
                 hashes: set<int>, s: State)
    requires Swept(before, after, keys, i, hashes, s) && i < |keys|
    ensures keys[i] in after && keys[i] in before && after[keys[i]] == before[keys[i]]
    ensures Expired(s, keys[i].height, before[keys[i]].time) ==>
      Swept(before, after - {keys[i]}, keys, i + 1, hashes + {keys[i].hash}, s)
  {
    hide Expired;
    assert keys[i..] == [keys[i]] + keys[i + 1..];
    assert keys[i] !in keys[i + 1..] by {
      assert forall j | i < j < |keys| :: Before(keys[i], keys[j]);
    }
  }

  /** Exactly what has not expired is left. */
  ghost predicate Unexpired(before: map<Key, Evidence>, after: map<Key, Evidence>, s: State) {
    && (forall k :: k in after <==> k in before && !Expired(s, k.height, before[k].time))
    && (forall k | k in after :: after[k] == before[k])
  }

  lemma UnexpiredKeys(before: map<Key, Evidence>, after: map<Key, Evidence>, s: State)
    requires Unexpired(before, after, s)
    ensures after.Keys <= before.Keys
  {
  }

  ghost predicate PrunedExactly(before: map<Key, Evidence>, after: map<Key, Evidence>, hashes: set<int>, s: State) {
    && Unexpired(before, after, s)
    && (forall k | k in before && k !in after :: k.hash in hashes)
  }

  /** The next prune is due when the oldest evidence left has expired, and a block and a
      second later; without any, after the present block. */
  ghost predicate PruneAfter(left: set<Key>, s: State, blockTime: int -> int, height: int, time: int) {
    if left == {} then height == s.lastBlockHeight && time == s.lastBlockTime
    else exists k :: Oldest(left, k) && PruneFor(k, s, blockTime, height, time)
  }

  ghost predicate Oldest(left: set<Key>, k: Key) {
    k in left && forall j | j in left && j != k :: Before(k, j)
  }

  predicate PruneFor(k: Key, s: State, blockTime: int -> int, height: int, time: int) {
    height == k.height + s.maxAgeNumBlocks + 1 && time == blockTime(k.height) + s.maxAgeDuration + SECOND
  }

  /** The numbers noted say when it expires: from the height noted on, and once the block
      time has come within a second of the time noted. */
  lemma ExpiresWhen(k: Key, s: State, s': State, blockTime: int -> int, height: int, time: int)
    requires PruneFor(k, s, blockTime, height, time)
    requires s'.maxAgeNumBlocks == s.maxAgeNumBlocks && s'.maxAgeDuration == s.maxAgeDuration
    ensures Expired(s', k.height, blockTime(k.height)) <==>
      s'.lastBlockHeight >= height && s'.lastBlockTime > time - SECOND
  {
  }

  lemma FirstLeft(before: map<Key, Evidence>, after: map<Key, Evidence>, keys: seq<Key>, i: nat, hashes: set<int>,
                  s: State)
    requires Swept(before, after, keys, i, hashes, s) && i < |keys|
    ensures Oldest(after.Keys, keys[i])
  {
    hide Expired, Before;
    forall j | j in after.Keys && j != keys[i] ensures Before(keys[i], j) {
      var n :| i <= n < |keys| && keys[n] == j;
    }
  }

  lemma NoneLeft(before: map<Key, Evidence>, after: map<Key, Evidence>, keys: seq<Key>, hashes: set<int>, s: State)
    requires Swept(before, after, keys, |keys|, hashes, s)
    ensures after.Keys == {}
  {
    hide Expired;
    assert keys[|keys|..] == [];
  }

  lemma SweepStops(before: map<Key, Evidence>, after: map<Key, Evidence>, keys: seq<Key>, i: nat, hashes: set<int>,
                   s: State, blockTime: int -> int)
    requires Swept(before, after, keys, i, hashes, s) && TimesGrow(blockTime) && i < |keys|
    requires forall k | k in before :: before[k].time == blockTime(k.height)
    requires !Expired(s, keys[i].height, blockTime(keys[i].height))
    ensures PrunedExactly(before, after, hashes, s)
  {
    OthersFresh(s, blockTime, keys[i..]);
    SplitKeys(keys, i);
    hide Expired, Before;
  }

  lemma SweepEnds(before: map<Key, Evidence>, after: map<Key, Evidence>, keys: seq<Key>, hashes: set<int>, s: State)
    requires Swept(before, after, keys, |keys|, hashes, s)
    ensures PrunedExactly(before, after, hashes, s)
  {
    SplitKeys(keys, |keys|);
    hide Expired, Before;
  }

  lemma SplitKeys(keys: seq<Key>, i: nat)
    requires i <= |keys|
    ensures forall k :: k in keys <==> k in keys[i..] || exists j :: 0 <= j < i && keys[j] == k
  {
    assert keys == keys[..i] + keys[i..];
  }

  datatype Verdict = Fine | AlreadyCommitted | Duplicate | Unverified

  /** A block applied: the state after it and the evidence in it; `known` are the heights
      whose block and voters the node can load. */
  datatype Block = Block(state: State, evidence: seq<Evidence>, known: set<int>)

  ghost predicate AllDifferent(evidence: seq<Evidence>) {
    forall i, j | 0 <= i < j < |evidence| :: evidence[i].hash != evidence[j].hash
  }

  datatype Request =
    /** Consensus checks a block and applies it; the additions `meanwhile` end in between. */
    | Apply(block: Block, meanwhile: seq<nat>)
    | Check(evidence: seq<Evidence>, known: set<int>)
    | Report(pair: VotePair)
    | StartAdd(item: Evidence, known: set<int>)
    | EndAdd(index: nat)
    | Reopen

  /** The additions that have not ended, after those with these indexes have, one by one. */
  ghost function Ended(adding: seq<Evidence>, indexes: seq<nat>): seq<Evidence> {
    if indexes == [] then adding
    else
      var left, i := Ended(adding, indexes[..|indexes| - 1]), indexes[|indexes| - 1];
      if i < |left| then left[..i] + left[i + 1..] else left
  }

  ghost function KeysOf(evidence: seq<Evidence>): set<Key> {
    set e | e in evidence :: KeyOf(e)
  }

  ghost function HashesOf(evidence: seq<Evidence>): set<int> {
    set e | e in evidence :: e.hash
  }

  lemma HashListed(evidence: seq<Evidence>, i: nat)
    requires i < |evidence|
    ensures KeyOf(evidence[i]).hash in HashesOf(evidence)
  {
  }

  lemma NoKeys(evidence: seq<Evidence>)
    ensures KeysOf(evidence[..0]) == {}
  {
  }

  /** One more piece of evidence: its key is among the earlier ones only if its hash is. */
  lemma NextKey(evidence: seq<Evidence>, i: nat)
    requires i < |evidence|
    ensures KeysOf(evidence[..i + 1]) == KeysOf(evidence[..i]) + {KeyOf(evidence[i])}
    ensures evidence[i] in evidence && forall e | e in evidence[..i + 1] :: e in evidence[..i] || e == evidence[i]
    ensures KeyOf(evidence[i]) in KeysOf(evidence[..i]) ==>
      exists j :: 0 <= j < i && evidence[j].hash == evidence[i].hash
    ensures AllDifferent(evidence[..i + 1]) <==>
      AllDifferent(evidence[..i]) && !(exists j :: 0 <= j < i && evidence[j].hash == evidence[i].hash)
    ensures AllDifferent(evidence) ==> AllDifferent(evidence[..i + 1])
  {
    assert evidence[..i + 1] == evidence[..i] + [evidence[i]];
    if KeyOf(evidence[i]) in KeysOf(evidence[..i]) {
      var e :| e in evidence[..i] && KeyOf(e) == KeyOf(evidence[i]);
      var j :| 0 <= j < i && evidence[j] == e;
      assert evidence[j].hash == evidence[i].hash;
    }
  }

  lemma KeysGrow(evidence: seq<Evidence>, i: nat)
    requires i <= |evidence|
    ensures KeysOf(evidence[..i]) <= KeysOf(evidence)
  {
  }

  lemma OneKey(e: Evidence)
    ensures KeysOf([e]) == {KeyOf(e)}
  {
    assert e in [e];
  }

  /** The node knows the time of the block the votes belong to. */
  predicate Datable(pair: VotePair, s: State, known: set<int>) {
    pair.height == s.lastBlockHeight || (pair.height < s.lastBlockHeight && pair.height in known)
  }

  predicate Reported(buffer: seq<VotePair>, k: Key) {
    VotePair(k.height, k.hash) in buffer
  }

  ghost predicate PendingFiled(pending: map<Key, Evidence>, blockTime: int -> int) {
    forall k | k in pending :: KeyOf(pending[k]) == k && pending[k].time == blockTime(k.height)
  }

  ghost predicate ListFiled(list: seq<Evidence>, keys: set<Key>) {
    forall e | e in list :: KeyOf(e) in keys
  }

  ghost predicate AddingFiled(adding: seq<Evidence>, blockTime: int -> int) {
    forall e | e in adding :: e.time == blockTime(e.height)
  }

  ghost predicate TracedBy(pending: set<Key>, committed: set<Key>, raced: set<Key>, twice: set<Key>) {
    pending * committed == raced * pending && raced <= committed && twice <= raced
  }

  /** Evidence enters the pending set uncommitted, or leaves it. */
  lemma TracedStays(p: set<Key>, p': set<Key>, c: set<Key>, raced: set<Key>, twice: set<Key>)
    requires TracedBy(p, c, raced, twice) && p' * c <= p * c
    ensures TracedBy(p', c, raced, twice)
  {
  }

  lemma OnlyRaced(p: set<Key>, c: set<Key>, raced: set<Key>, twice: set<Key>)
    requires TracedBy(p, c, raced, twice)
    ensures p * c <= raced
  {
  }

  lemma TracedAdd(p: set<Key>, c: set<Key>, raced: set<Key>, twice: set<Key>, k: Key)
    requires TracedBy(p, c, raced, twice)
    ensures TracedBy(p + {k}, c, raced + {k} * c, twice)
  {
    forall x ensures x in (p + {k}) * c <==> x in (raced + {k} * c) * (p + {k}) {
      assert x in p * c <==> x in raced * p;
    }
  }

  lemma TracedCommit(p: set<Key>, p': set<Key>, c: set<Key>, raced: set<Key>, twice: set<Key>, keys: set<Key>)
    requires TracedBy(p, c, raced, twice) && p' * (c + keys) <= p * c && keys * c <= raced
    ensures TracedBy(p', c + keys, raced, twice + c * keys)
  {
  }

  class Pool {
    const blockTime: int -> int
    const sound: (State, Evidence) -> bool
    var pending: map<Key, Evidence>
    var committed: set<Key>
    var list: seq<Evidence>
    var buffer: seq<VotePair>
    var state: State
    var evidenceSize: int
    var pruningHeight: int
    var pruningTime: int

    /** Evidence verified by calls of AddEvidence that have not written it yet. */
    var adding: seq<Evidence>
    /** Keys written as pending after they had been committed. */
    ghost var raced: set<Key>
    /** Keys that a block committed although they had been committed before. */
    ghost var twice: set<Key>
    /** How often pending evidence has been written as pending again, since the last restart. */
    ghost var rewrites: nat

    /** No evidence is both pending and committed. */
    ghost predicate Separate() reads this {
      Overlap() == {}
    }

    ghost function Overlap(): set<Key> reads this {
      pending.Keys * committed
    }

    /** Pending evidence is stored under its key, dated like its block, and holds all that
        is gossiped. */
    ghost predicate Filed() reads this {
      && PendingFiled(pending, blockTime) && ListFiled(list, pending.Keys) && AddingFiled(adding, blockTime)
      && Counted()
    }

    /** The counter counts rewritten evidence again, and wraps around. */
    ghost predicate Counted() reads `pending, `evidenceSize, `rewrites {
      CounterShows(evidenceSize, pending, rewrites)
    }

    /** Evidence is both pending and committed only if it was added too late. */
    ghost predicate Traced() reads this {
      TracedBy(pending.Keys, committed, raced, twice)
    }

    constructor(blockTime: int -> int, sound: (State, Evidence) -> bool, state: State)
      ensures Filed() && Traced() && raced == {}
      ensures pending == map[] && committed == {} && buffer == [] && adding == [] && this.state == state
      ensures this.blockTime == blockTime && this.sound == sound && rewrites == 0
      ensures pruningHeight == state.lastBlockHeight && pruningTime == state.lastBlockTime
    {
      this.blockTime, this.sound, this.state := blockTime, sound, state;
      pending, committed, list, buffer, adding, raced, twice := map[], {}, [], [], [], {}, {};
      evidenceSize, pruningHeight, pruningTime := 0, state.lastBlockHeight, state.lastBlockTime;
      rewrites := 0;
    }

    predicate Verify(e: Evidence, known: set<int>) reads `state {
      && e.height in known && e.time == blockTime(e.height)
      && !Expired(state, e.height, e.time) && sound(state, e)
    }

    method AddPending(e: Evidence)
      requires Counted()
      modifies `pending, `evidenceSize, `rewrites
      ensures Counted() && pending == old(pending)[KeyOf(e) := e]
      ensures rewrites == old(rewrites) + if KeyOf(e) in old(pending) then 1 else 0
    {
      hide CounterShows;
      CounterUp(evidenceSize, pending, rewrites, KeyOf(e), e);
      rewrites := rewrites + if KeyOf(e) in pending then 1 else 0;
      pending := pending[KeyOf(e) := e];
      evidenceSize := (evidenceSize + 1) % COUNTER_SIZE;
    }

    method RemovePending(k: Key)
      requires Counted() && k in pending
      modifies `pending, `evidenceSize
      ensures Counted() && pending == old(pending) - {k}
    {
      hide CounterShows;
      CounterDown(evidenceSize, pending, rewrites, k);
      pending := pending - {k};
      evidenceSize := (evidenceSize - 1) % COUNTER_SIZE;
    }

    method ReportConflictingVotes(pair: VotePair)
      requires Filed()
      modifies `buffer
      ensures Filed() && buffer == old(buffer) + [pair]
    {
      buffer := buffer + [pair];
    }

    /** What CheckEvidence lets pass: pending evidence, unless of a light client attack, and
        uncommitted evidence that verifies. */
    ghost predicate Acceptable(pending: set<Key>, e: Evidence, known: set<int>) reads `committed, `state {
      (!e.lightAttack && KeyOf(e) in pending) || (KeyOf(e) !in committed && Verify(e, known))
    }

    ghost predicate AllAcceptable(evidence: seq<Evidence>, known: set<int>) reads `pending, `committed, `state {
      forall e | e in evidence :: Acceptable(pending.Keys, e, known)
    }

    /** The first piece that does not pass: for the state of the node, or else because it is
        named twice. */
    ghost predicate TurnedDown(evidence: seq<Evidence>, known: set<int>, i: nat, v: Verdict)
      requires i < |evidence|
      reads `pending, `committed, `state
    {
      && AllDifferent(evidence[..i]) && AllAcceptable(evidence[..i], known)
      && if !Acceptable(pending.Keys + KeysOf(evidence[..i]), evidence[i], known)
         then v == if KeyOf(evidence[i]) in committed then AlreadyCommitted else Unverified
         else v == Duplicate && exists j :: 0 <= j < i && evidence[j].hash == evidence[i].hash
    }

    /** One piece of evidence in a block. Committed evidence is turned down, except pending
        evidence of duplicate votes, whose commitment is not looked up. */
    method CheckOne(e: Evidence, known: set<int>) returns (v: Verdict)
      requires Filed()
      modifies `pending, `evidenceSize, `rewrites
      ensures Filed() && Overlap() == old(Overlap()) && v != Duplicate
      ensures v == Fine <==> Acceptable(old(pending.Keys), e, known)
      ensures KeyOf(e) in committed ==> (v == Fine <==> !e.lightAttack && KeyOf(e) in old(Overlap()))
      ensures KeyOf(e) in committed && v != Fine ==> v == AlreadyCommitted
      ensures KeyOf(e) !in committed && v != Fine ==> v == Unverified
      ensures v == Fine && KeyOf(e) !in old(pending) ==>
        e.height in known && e.time == blockTime(e.height) && sound(state, e) && !Expired(state, e.height, e.time)
      ensures KeyOf(e) !in committed && e.height in known && e.time == blockTime(e.height) && sound(state, e) ==>
        v == Fine || Expired(state, e.height, e.time)
      ensures v == Fine ==> KeyOf(e) in pending
      ensures pending == old(pending) || (pending == old(pending)[KeyOf(e) := e] && Verify(e, known))
    {
      if e.lightAttack || KeyOf(e) !in pending {
        if KeyOf(e) in committed { return AlreadyCommitted; }
        if !Verify(e, known) { return Unverified; }
        AddPending(e);
      }
      return Fine;
    }

    method IsRepeated(evidence: seq<Evidence>, i: nat) returns (repeated: bool)
      requires i < |evidence|
      ensures repeated == exists j :: 0 <= j < i && evidence[j].hash == evidence[i].hash
    {
      for j := i downto 0
        invariant forall k | j <= k < i :: evidence[k].hash != evidence[i].hash
      {
        if evidence[j].hash == evidence[i].hash { return true; }
      }
      return false;
    }

    /** A block passes exactly if it names no evidence twice and each piece is acceptable.
        What passes is pending afterwards, and only verified evidence is added. */
    method CheckEvidence(evidence: seq<Evidence>, known: set<int>) returns (v: Verdict)
      requires Filed()
      modifies `pending, `evidenceSize, `rewrites
      ensures Filed() && Overlap() == old(Overlap()) && (old(Traced()) ==> Traced())
      ensures v == Fine <==> AllDifferent(evidence) && old(AllAcceptable(evidence, known))
      ensures v != Fine ==> exists i :: 0 <= i < |evidence| && old(TurnedDown(evidence, known, i, v))
      ensures v == Fine ==> KeysOf(evidence) <= pending.Keys && KeysOf(evidence) * committed <= old(Overlap())
      ensures old(pending.Keys) <= pending.Keys <= old(pending.Keys) + KeysOf(evidence)
      ensures forall k | k in pending && k !in old(pending) :: Verify(pending[k], known)
    {
      hide Expired, PendingFiled, ListFiled, AddingFiled, TracedBy, KeysOf, CounterShows;
      v := Fine;
      var i := 0;
      NoKeys(evidence);
      while i < |evidence| && v == Fine
        invariant 0 <= i <= |evidence| && Filed() && Overlap() == old(Overlap())
        invariant old(pending.Keys) <= pending.Keys <= old(pending.Keys) + KeysOf(evidence[..i])
        invariant forall k | k in pending && k !in old(pending) :: Verify(pending[k], known)
        invariant v == Fine ==> KeysOf(evidence[..i]) <= pending.Keys && AllDifferent(evidence[..i])
        invariant v == Fine ==> forall e | e in evidence[..i] :: Acceptable(old(pending.Keys), e, known)
        invariant v == Fine || !AllDifferent(evidence) ||
          exists e :: e in evidence && !Acceptable(old(pending.Keys), e, known)
        invariant v != Fine ==> i > 0 && old(TurnedDown(evidence, known, i - 1, v))
      {
        NextKey(evidence, i);
        assert pending.Keys == old(pending.Keys) + KeysOf(evidence[..i]);
        v := CheckOne(evidence[i], known);
        var repeated := IsRepeated(evidence, i);
        if v == Fine && repeated {
          v := Duplicate;
        }
        i := i + 1;
      }
      assert v == Fine ==> evidence[..i] == evidence;
      KeysGrow(evidence, i);
      if v == Fine {
        AcceptableKeys(evidence, known, old(pending.Keys));
      }
      if old(Traced()) {
        TracedStays(old(pending.Keys), pending.Keys, committed, raced, twice);
      }
    }

    /** What passes although it is committed is pending. */
    lemma AcceptableKeys(evidence: seq<Evidence>, known: set<int>, pending: set<Key>)
      requires forall e | e in evidence :: Acceptable(pending, e, known)
      ensures KeysOf(evidence) * committed <= pending * committed
    {
    }

    method RemoveFromList(hashes: set<int>)
      modifies `list
      ensures forall e | e in list :: e in old(list) && e.hash !in hashes
      ensures forall e | e in old(list) && e.hash !in hashes :: e in list
    {
      var rest: seq<Evidence> := [];
      for i := 0 to |list|
        invariant list == old(list)
        invariant forall e | e in rest :: e in list && e.hash !in hashes
        invariant forall k | 0 <= k < i && list[k].hash !in hashes :: list[k] in rest
      {
        if list[i].hash !in hashes {
          rest := rest + [list[i]];
        }
      }
      list := rest;
    }

    method CommitKeys(evidence: seq<Evidence>) returns (hashes: set<int>)
      requires Counted()
      modifies `pending, `evidenceSize, `committed
      ensures Counted() && committed == old(committed) + KeysOf(evidence)
      ensures pending == old(pending) - KeysOf(evidence) && hashes <= HashesOf(evidence)
      ensures forall k | k in old(pending) && k !in pending :: k.hash in hashes
    {
      hide CounterShows, KeysOf, HashesOf;
      hashes := {};
      NoKeys(evidence);
      for i := 0 to |evidence|
        invariant Counted() && hashes <= HashesOf(evidence)
        invariant committed == old(committed) + KeysOf(evidence[..i])
        invariant pending == old(pending) - KeysOf(evidence[..i])
        invariant forall k | k in old(pending) && k !in pending :: k.hash in hashes
      {
        var k := KeyOf(evidence[i]);
        NextKey(evidence, i);
        HashListed(evidence, i);
        if k in pending {
          RemovePending(k);
          hashes := hashes + {k.hash};
        }
        committed := committed + {k};
      }
      assert evidence[..|evidence|] == evidence;
    }

    /** Exactly the block's evidence becomes committed, and it is no longer pending. */
    method MarkCommitted(evidence: seq<Evidence>)
      requires Filed()
      modifies `pending, `evidenceSize, `committed, `list, `twice
      ensures Filed() && twice == old(twice) + old(committed) * KeysOf(evidence)
      ensures committed == old(committed) + KeysOf(evidence)
      ensures pending == old(pending) - KeysOf(evidence)
      ensures forall e | e in old(list) && e.hash !in HashesOf(evidence) :: e in list
    {
      hide CounterShows, HashesOf, KeysOf;
      twice := twice + committed * KeysOf(evidence);
      var hashes := CommitKeys(evidence);
      RemoveFromList(hashes);
    }

    /** Removes evidence in the order of the database and stops at the first piece that has
        not expired: none that has is left. */
    method RemoveExpired() returns (height: int, time: int)
      requires Filed() && TimesGrow(blockTime)
      modifies `pending, `evidenceSize, `list
      ensures Filed()
      ensures Unexpired(old(pending), pending, state)
      ensures PruneAfter(pending.Keys, state, blockTime, height, time)
    {
      hide Expired, Swept, Before, InOrder, TimesGrow, CounterShows;
      var hashes: set<int> := {};
      var keys := Ordered(pending.Keys);
      SweepNone(pending, keys, state);
      for i := 0 to |keys|
        invariant list == old(list) && Counted() && Swept(old(pending), pending, keys, i, hashes, state)
      {
        SweepOne(old(pending), pending, keys, i, hashes, state);
        var e := pending[keys[i]];
        if !Expired(state, e.height, e.time) {
          SweepStops(old(pending), pending, keys, i, hashes, state, blockTime);
          RemoveFromList(hashes);
          FirstLeft(old(pending), pending, keys, i, hashes, state);
          assert pending[keys[i]].time == blockTime(keys[i].height) && e.height == keys[i].height;
          return e.height + state.maxAgeNumBlocks + 1, e.time + state.maxAgeDuration + SECOND;
        }
        RemovePending(keys[i]);
        hashes := hashes + {keys[i].hash};
      }
      SweepEnds(old(pending), pending, keys, hashes, state);
      NoneLeft(old(pending), pending, keys, hashes, state);
      RemoveFromList(hashes);
      return state.lastBlockHeight, state.lastBlockTime;
    }

    /** The pool has the evidence of these votes, or had it. */
    ghost predicate Taken(pair: VotePair) reads this {
      Key(pair.height, pair.hash) in pending || Key(pair.height, pair.hash) in committed
    }

    method TakeVotes(pair: VotePair, next: State, known: set<int>)
      requires Filed() && next.lastBlockTime == blockTime(next.lastBlockHeight)
      modifies `pending, `evidenceSize, `rewrites, `list
      ensures Filed() && Overlap() == old(Overlap()) && (Datable(pair, next, known) ==> Taken(pair))
      ensures forall k | k in old(pending) :: k in pending && pending[k] == old(pending)[k]
      ensures forall k | k in pending && k !in old(pending) ::
        k == Key(pair.height, pair.hash) && Datable(pair, next, known) && k !in committed
      ensures list == if pending == old(pending) then old(list)
                      else old(list) + [Evidence(pair.height, blockTime(pair.height), pair.hash, false)]
      ensures rewrites == old(rewrites) && |pending| <= |old(pending)| + 1
    {
      hide CounterShows;
      var e: Evidence;
      if pair.height == next.lastBlockHeight {
        e := Evidence(pair.height, next.lastBlockTime, pair.hash, false);
      } else if pair.height < next.lastBlockHeight && pair.height in known {
        e := Evidence(pair.height, blockTime(pair.height), pair.hash, false);
      } else {
        return;
      }
      if KeyOf(e) in pending || KeyOf(e) in committed { return; }
      AddPending(e);
      list := list + [e];
    }

    /** Votes reported by consensus become evidence, dated like the block of their height. */
    method ProcessBuffer(next: State, known: set<int>)
      requires Filed() && next.lastBlockTime == blockTime(next.lastBlockHeight)
      modifies `pending, `evidenceSize, `rewrites, `list, `buffer
      ensures Filed() && buffer == [] && Overlap() == old(Overlap())
      ensures forall k | k in old(pending) :: k in pending && pending[k] == old(pending)[k]
      ensures forall k | k in pending && k !in old(pending) ::
        && Reported(old(buffer), k) && Datable(VotePair(k.height, k.hash), next, known) && k !in committed
        && Evidence(k.height, blockTime(k.height), k.hash, false) in list
      ensures forall pair | pair in old(buffer) && Datable(pair, next, known) :: Taken(pair)
      ensures rewrites == old(rewrites) && |pending| <= |old(pending)| + |old(buffer)| && old(list) <= list
    {
      hide CounterShows, PendingFiled, ListFiled, AddingFiled;
      for i := 0 to |buffer|
        invariant Filed() && buffer == old(buffer) && Overlap() == old(Overlap())
        invariant rewrites == old(rewrites) && |pending| <= |old(pending)| + i && old(list) <= list
        invariant forall k | k in old(pending) :: k in pending && pending[k] == old(pending)[k]
        invariant forall k | k in pending && k !in old(pending) ::
          && Reported(old(buffer), k) && Datable(VotePair(k.height, k.hash), next, known) && k !in committed
          && Evidence(k.height, blockTime(k.height), k.hash, false) in list
        invariant forall j | 0 <= j < i && Datable(buffer[j], next, known) :: Taken(buffer[j])
      {
        TakeVotes(buffer[i], next, known);
      }
      buffer := [];
    }

    /** Later than the height and time noted by the last prune. */
    predicate PruneDue(next: State) reads `pruningHeight, `pruningTime {
      next.lastBlockHeight > pruningHeight && next.lastBlockTime > pruningTime
    }

    /** So few that the counter cannot have wrapped around. */
    ghost predicate FewPending() reads `pending, `buffer, `rewrites {
      |pending| + |buffer| + rewrites < COUNTER_SIZE
    }

    /** Prunes if it is due and the counter is not 0, and else leaves everything alone. */
    method PruneWhenDue()
      requires Filed() && TimesGrow(blockTime)
      modifies `pending, `evidenceSize, `list, `pruningHeight, `pruningTime
      ensures Filed() && pending.Keys <= old(pending.Keys)
      ensures if old(evidenceSize) > 0 && old(PruneDue(state))
        then (forall k | k in old(pending) :: k in pending <==> !Expired(state, k.height, blockTime(k.height)))
             && PruneAfter(pending.Keys, state, blockTime, pruningHeight, pruningTime)
        else pending == old(pending) && pruningHeight == old(pruningHeight) && pruningTime == old(pruningTime)
    {
      if evidenceSize > 0 && state.lastBlockHeight > pruningHeight && state.lastBlockTime > pruningTime {
        pruningHeight, pruningTime := RemoveExpired();
      }
    }

    /** What applying a block does before it prunes. */
    method TakeBlock(b: Block)
      requires Filed() && b.state.lastBlockTime == blockTime(b.state.lastBlockHeight)
      modifies this
      ensures Filed() && state == b.state && buffer == [] && Overlap() <= old(Overlap())
      ensures raced == old(raced) && adding == old(adding)
      ensures pruningHeight == old(pruningHeight) && pruningTime == old(pruningTime)
      ensures committed == old(committed) + KeysOf(b.evidence)
      ensures twice == old(twice) + old(committed) * KeysOf(b.evidence)
      ensures forall k | k in old(pending) && k !in KeysOf(b.evidence) :: k in pending
      ensures forall pair | pair in old(buffer) && Datable(pair, state, b.known) :: Taken(pair)
      ensures forall k | k in pending :: k !in KeysOf(b.evidence) && (k in old(pending) || Reported(old(buffer), k))
      ensures old(FewPending()) && pending != map[] ==> evidenceSize > 0
      ensures rewrites == old(rewrites)
    {
      hide CounterShows, PendingFiled, ListFiled, AddingFiled, KeysOf;
      ProcessBuffer(b.state, b.known);
      state := b.state;
      FewerLeft(pending, pending - KeysOf(b.evidence));
      MarkCommitted(b.evidence);
      if old(FewPending()) {
        CounterPositive(evidenceSize, pending, rewrites);
      }
    }

    /** Applies a block. `ok` is false when the node panics on a height that does not grow. */
    method Update(b: Block) returns (ok: bool)
      requires Filed() && TimesGrow(blockTime) && b.state.lastBlockTime == blockTime(b.state.lastBlockHeight)
      modifies this
      ensures Filed() && ok == (b.state.lastBlockHeight > old(state).lastBlockHeight)
      ensures raced == old(raced) && adding == old(adding) && Overlap() <= old(Overlap())
      ensures old(Traced()) && (ok ==> KeysOf(b.evidence) * old(committed) <= old(raced)) ==> Traced()
      ensures !ok ==>
        committed == old(committed) && pending == old(pending) && state == old(state) && twice == old(twice)
      ensures ok ==> state == b.state && buffer == []
      ensures ok ==> forall k | k in old(pending) && k !in KeysOf(b.evidence) ::
        k in pending || Expired(state, k.height, blockTime(k.height))
      ensures ok ==> forall pair | pair in old(buffer) && Datable(pair, state, b.known) ::
        Taken(pair) || Expired(state, pair.height, blockTime(pair.height))
      ensures ok ==>
        forall k | k in pending :: k !in KeysOf(b.evidence) && (k in old(pending) || Reported(old(buffer), k))
      ensures ok ==> committed == old(committed) + KeysOf(b.evidence) && rewrites == old(rewrites)
      ensures ok ==> twice == old(twice) + old(committed) * KeysOf(b.evidence)
      ensures ok && old(PruneDue(b.state)) && old(FewPending()) ==>
        forall k | k in pending :: !Expired(state, k.height, blockTime(k.height))
      ensures ok && old(PruneDue(b.state)) && old(FewPending()) && pending != map[] ==>
        PruneAfter(pending.Keys, state, blockTime, pruningHeight, pruningTime)
      ensures ok && !old(PruneDue(b.state)) ==>
        && pruningHeight == old(pruningHeight) && pruningTime == old(pruningTime)
        && forall k | k in old(pending) && k !in KeysOf(b.evidence) :: k in pending
    {
      hide PruneAfter, TimesGrow, PendingFiled, ListFiled, AddingFiled, Expired, TracedBy, CounterShows, KeysOf;
      if b.state.lastBlockHeight <= state.lastBlockHeight { return false; }
      TakeBlock(b);
      PruneWhenDue();
      if old(Traced()) && KeysOf(b.evidence) * old(committed) <= old(raced) {
        TracedCommit(old(pending.Keys), pending.Keys, old(committed), raced, old(twice), KeysOf(b.evidence));
      }
      ok := true;
    }

    /** The first half of AddEvidence: evidence that is neither pending nor committed, and
        verifies, is going to be added. */
    method StartAdd(e: Evidence, known: set<int>) returns (goesOn: bool)
      requires Filed()
      modifies `adding
      ensures Filed() && goesOn == (KeyOf(e) !in pending && KeyOf(e) !in committed && Verify(e, known))
      ensures adding == if goesOn then old(adding) + [e] else old(adding)
    {
      if KeyOf(e) in pending || KeyOf(e) in committed || !Verify(e, known) { return false; }
      adding := adding + [e];
      goesOn := true;
    }

    /** The second half writes it, whatever has happened since. */
    method EndAdd(index: nat)
      requires Filed() && index < |adding|
      modifies `adding, `pending, `evidenceSize, `rewrites, `list, `raced
      ensures Filed() && (old(Traced()) ==> Traced())
      ensures adding == old(adding)[..index] + old(adding)[index + 1..]
      ensures rewrites == old(rewrites) + if KeyOf(old(adding)[index]) in old(pending) then 1 else 0
      ensures var k := KeyOf(old(adding)[index]);
        && pending == old(pending)[k := old(adding)[index]] && list == old(list) + [old(adding)[index]]
        && raced == old(raced) + {k} * committed
        && Overlap() == old(Overlap()) + {k} * committed
    {
      hide TracedBy, CounterShows;
      var e := adding[index];
      if Traced() {
        TracedAdd(pending.Keys, committed, raced, twice, KeyOf(e));
      }
      adding := adding[..index] + adding[index + 1..];
      AddPending(e);
      assert pending.Keys == old(pending.Keys) + {KeyOf(e)};
      list := list + [e];
      raced := raced + {KeyOf(e)} * committed;
    }

    /** The pending evidence in the order of the database. */
    method ListPending() returns (all: seq<Evidence>)
      requires Filed()
      ensures |all| == |pending| && forall k | k in pending :: pending[k] in all
      ensures forall e | e in all :: KeyOf(e) in pending && pending[KeyOf(e)] == e
      ensures forall i, j | 0 <= i < j < |all| :: Before(KeyOf(all[i]), KeyOf(all[j]))
    {
      var keys := Ordered(pending.Keys);
      all := seq(|keys|, i requires 0 <= i < |keys| && keys[i] in pending reads this => pending[keys[i]]);
      forall k | k in pending ensures pending[k] in all {
        var i :| 0 <= i < |keys| && keys[i] == k;
        assert all[i] == pending[k];
      }
    }

    /** A restart prunes, and gossips again what is pending in the database, oldest first. */
    method Restart()
      requires Filed() && TimesGrow(blockTime)
      modifies this
      ensures Filed() && committed == old(committed) && raced == old(raced) && twice == old(twice)
      ensures PruneAfter(pending.Keys, state, blockTime, pruningHeight, pruningTime) && rewrites == 0
      ensures buffer == [] && adding == [] && (old(Traced()) ==> Traced())
      ensures Unexpired(old(pending), pending, state)
      ensures |list| == |pending| && forall k | k in pending :: pending[k] in list
    {
      hide Before, TimesGrow, PendingFiled, CounterShows, PruneAfter, Unexpired, TracedBy;
      buffer, list, adding := [], [], [];
      pruningHeight, pruningTime := RemoveExpired();
      UnexpiredKeys(old(pending), pending, state);
      if old(Traced()) {
        TracedStays(old(pending.Keys), pending.Keys, committed, raced, twice);
      }
      list := ListPending();
      CounterAnew(pending);
      evidenceSize, rewrites := |list| % COUNTER_SIZE, 0;
    }

    /** Consensus checks a block's evidence and applies the block; additions may end in
        between. Evidence committed before is committed again only if it was raced. */
    method ApplyBlock(b: Block, meanwhile: seq<nat>) returns (v: Verdict, ok: bool)
      requires Filed() && Traced() && TimesGrow(blockTime)
      requires b.state.lastBlockTime == blockTime(b.state.lastBlockHeight)
      modifies this
      ensures Filed() && Traced() && old(committed) <= committed && old(raced) <= raced
      ensures v == Fine <==> AllDifferent(b.evidence) && old(AllAcceptable(b.evidence, b.known))
      ensures ok == (v == Fine && b.state.lastBlockHeight > old(state).lastBlockHeight)
      ensures ok ==> committed == old(committed) + KeysOf(b.evidence) && state == b.state
      ensures ok ==> twice == old(twice) + old(committed) * KeysOf(b.evidence)
      ensures ok ==> KeysOf(b.evidence) * old(committed) <= old(raced)
      ensures !ok ==> committed == old(committed) && twice == old(twice) && state == old(state)
      ensures adding == Ended(old(adding), meanwhile)
    {
      hide PendingFiled, ListFiled, AddingFiled, TimesGrow, TracedBy;
      ok := false;
      v := CheckEvidence(b.evidence, b.known);
      OnlyRaced(old(pending.Keys), committed, raced, twice);
      for i := 0 to |meanwhile|
        modifies `adding, `pending, `evidenceSize, `rewrites, `list, `raced
        invariant Filed() && Traced() && old(raced) <= raced
        invariant adding == Ended(old(adding), meanwhile[..i])
      {
        assert meanwhile[..i + 1][..i] == meanwhile[..i];
        if meanwhile[i] < |adding| {
          EndAdd(meanwhile[i]);
        }
      }
      assert meanwhile[..|meanwhile|] == meanwhile;
      if v == Fine {
        ok := Update(b);
      }
    }

    /** Whatever the pool is asked, with additions that take place in two steps: evidence
        is both pending and committed exactly if it was written as pending after it had
        been committed, and is still pending; and only such evidence is committed twice. */
    method Live(requests: seq<Request>)
      requires Filed() && Traced() && TimesGrow(blockTime)
      requires forall r | r in requests && r.Apply? ::
        r.block.state.lastBlockTime == blockTime(r.block.state.lastBlockHeight)
      modifies this
      ensures Filed() && Traced() && old(committed) <= committed
      ensures raced == {} ==> Separate() && twice == {}
    {
      hide PendingFiled, ListFiled, AddingFiled, TimesGrow;
      for i := 0 to |requests|
        invariant Filed() && Traced() && old(committed) <= committed
      {
        hide TracedBy;
        assert requests[i] in requests;
        match requests[i]
        case Apply(block, meanwhile) => var v, ok := ApplyBlock(block, meanwhile);
        case Check(evidence, known) => var v := CheckEvidence(evidence, known);
        case Report(pair) => ReportConflictingVotes(pair);
        case StartAdd(e, known) => var goesOn := StartAdd(e, known);
        case EndAdd(index) =>
          if index < |adding| {
            EndAdd(index);
          }
        case Reopen => Restart();
      }
    }
  }

  /** It can happen: evidence of height 3 is verified, block 6 commits it, it is written as
      pending, and block 7 with the same evidence passes and commits it again. */
  method CommittedTwice() returns (pool: Pool, v: Verdict, ok: bool)
    ensures fresh(pool) && v == Fine && ok && Key(3, 9) in pool.twice
  {
    hide PendingFiled, ListFiled, AddingFiled, TracedBy;
    var e := Evidence(3, 3, 9, false);
    OneKey(e);
    pool := new Pool(h => h, (s, x) => true, State(5, 5, 100, 100));
    var goesOn := pool.StartAdd(e, {3});
    hide Expired, KeysOf;
    v, ok := pool.ApplyBlock(Block(State(6, 6, 100, 100), [e], {3}), []);
    pool.EndAdd(0);
    v, ok := pool.ApplyBlock(Block(State(7, 7, 100, 100), [e], {3}), []);
  }

  const AGE_LIMIT := 100 * SECOND

  function OneBlockASecond(height: int): int {
    height * SECOND
  }

  predicate AllSound(s: State, e: Evidence) {
    true
  }

  lemma OnlyOneLeft(k: Key, s: State, blockTime: int -> int, height: int, time: int)
    requires PruneAfter({k}, s, blockTime, height, time)
    ensures PruneFor(k, s, blockTime, height, time)
  {
  }

  lemma SecondsGrow()
    ensures TimesGrow(OneBlockASecond)
  {
  }

  /** A pool at height 5 with one piece of evidence. */
  method OnePending() returns (pool: Pool)
    ensures fresh(pool) && pool.Filed() && pool.blockTime == OneBlockASecond && pool.sound == AllSound
    ensures pool.state == State(5, 5 * SECOND, 100, AGE_LIMIT) && pool.adding == [] && pool.committed == {}
    ensures pool.pruningHeight == 5 && pool.pruningTime == 5 * SECOND
    ensures pool.pending.Keys == {Key(5, 9)} && pool.buffer == [] && pool.FewPending()
  {
    hide PendingFiled, ListFiled, AddingFiled, TracedBy, CounterShows;
    pool := new Pool(OneBlockASecond, AllSound, State(5, 5 * SECOND, 100, AGE_LIMIT));
    var goesOn := pool.StartAdd(Evidence(5, 5 * SECOND, 9, false), {5});
    pool.EndAdd(0);
  }

  /** At height 6 it has set the next prune to 106. */
  method PruneSet() returns (pool: Pool)
    ensures fresh(pool) && pool.Filed() && pool.blockTime == OneBlockASecond && pool.sound == AllSound
    ensures pool.state == State(6, 6 * SECOND, 100, AGE_LIMIT) && pool.adding == [] && pool.committed == {}
    ensures pool.pruningHeight == 106 && pool.pending.Keys == {Key(5, 9)}
  {
    hide PendingFiled, ListFiled, AddingFiled, TracedBy, CounterShows, KeysOf, PruneAfter, TimesGrow;
    pool := OnePending();
    SecondsGrow();
    NoKeys([]);
    var ok := pool.Update(Block(State(6, 6 * SECOND, 100, AGE_LIMIT), [], {5}));
    assert !Expired(pool.state, 5, 5 * SECOND);
    assert pool.pending.Keys == {Key(5, 9)};
    OnlyOneLeft(Key(5, 9), pool.state, pool.blockTime, pool.pruningHeight, pool.pruningTime);
  }

  /** Expired evidence may stay pending: when a piece of height 5 has set the next prune to
      height 106, a piece of height 3 that comes later is still there at height 104. */
  method ExpiredLeft() returns (pool: Pool, ok: bool)
    ensures fresh(pool) && ok && Key(3, 8) in pool.pending
    ensures Expired(pool.state, 3, pool.blockTime(3))
  {
    hide PendingFiled, ListFiled, AddingFiled, TracedBy, CounterShows, Unexpired, KeysOf, TimesGrow, PruneAfter;
    pool := PruneSet();
    SecondsGrow();
    var goesOn := pool.StartAdd(Evidence(3, 3 * SECOND, 8, false), {3});
    pool.EndAdd(0);
    NoKeys([]);
    ok := pool.Update(Block(State(104, 104 * SECOND, 100, AGE_LIMIT), [], {3}));
  }

  /** The first key in the order of the database. */
  method First(keys: set<Key>) returns (first: Key)
    requires keys != {}
    ensures first in keys && forall k | k in keys && k != first :: Before(first, k)
  {
    EmptyOrNot(keys);
    first :| first in keys;
    var todo := keys - {first};
    while todo != {}
      invariant first in keys && todo <= keys
      invariant forall k | k in keys && k !in todo :: !Before(k, first)
      decreases |todo|
    {
      EmptyOrNot(todo);
      var k :| k in todo;
      if Before(k, first) {
        first := k;
      }
      todo := todo - {k};
    }
  }

  method Ordered(keys: set<Key>) returns (r: seq<Key>)
    ensures |r| == |keys| && InOrder(r) && forall k :: k in r <==> k in keys
  {
    hide Before;
    r := [];
    var todo := keys;
    while todo != {}
      invariant todo <= keys && |r| + |todo| == |keys|
      invariant forall k :: k in r <==> k in keys && k !in todo
      invariant forall i, k | 0 <= i < |r| && k in todo :: Before(r[i], k)
      invariant forall i, j | 0 <= i < j < |r| :: Before(r[i], r[j])
      decreases |todo|
    {
      var k := First(todo);
      r := r + [k];
      todo := todo - {k};
    }
  }
}
