/** The light client's providers and its two ways of verifying a new block. */
module LightClient {
  import opened Collections
  import opened LightVerifier

  // ----------------------------------------------------------- removing by index

  /** The elements of the first `n` positions that are not marked. */
  ghost function Rest(s: seq<Provider>, marked: set<int>, n: nat): seq<Provider>
    requires n <= |s|
  {
    if n == 0 then []
    else if n - 1 in marked then Rest(s, marked, n - 1)
    else Rest(s, marked, n - 1) + [s[n - 1]]
  }

  lemma {:induction false} RestUnmarked(s: seq<Provider>, marked: set<int>, n: nat)
    requires n <= |s| && forall i | 0 <= i < n :: i !in marked
    ensures Rest(s, marked, n) == s[..n]
  {
    if n > 0 {
      RestUnmarked(s, marked, n - 1);
      assert s[..n] == s[..n - 1] + [s[n - 1]];
    }
  }

  lemma AppendCounts(s: seq<Provider>, x: Provider)
    ensures multiset(s + [x]) == multiset(s) + multiset{x}
  {
  }

  /** Marking one more position takes one element away. */
  lemma {:induction false} RestMark(s: seq<Provider>, marked: set<int>, n: nat, i: nat)
    requires n <= |s| && i !in marked
    ensures i < n ==> multiset(Rest(s, marked, n)) == multiset(Rest(s, marked + {i}, n)) + multiset{s[i]}
    ensures i >= n ==> Rest(s, marked, n) == Rest(s, marked + {i}, n)
  {
    if n > 0 {
      RestMark(s, marked, n - 1, i);
      var without, more := Rest(s, marked, n - 1), Rest(s, marked + {i}, n - 1);
      if n - 1 != i && n - 1 !in marked {
        assert Rest(s, marked, n) == without + [s[n - 1]] && Rest(s, marked + {i}, n) == more + [s[n - 1]];
        hide Rest;
        AppendCounts(without, s[n - 1]);
        AppendCounts(more, s[n - 1]);
      } else if n - 1 == i {
        assert Rest(s, marked, n) == without + [s[i]] && Rest(s, marked + {i}, n) == more;
        hide Rest;
        AppendCounts(without, s[i]);
      }
    }
  }

  lemma {:induction false} RestAppend(s: seq<Provider>, p: Provider, marked: set<int>, n: nat)
    requires n <= |s|
    ensures Rest(s + [p], marked, n) == Rest(s, marked, n)
  {
    if n > 0 {
      RestAppend(s, p, marked, n - 1);
    }
  }

  ghost predicate Ascending(s: seq<int>) {
    forall i, j | 0 <= i < j < |s| :: s[i] < s[j]
  }

  ghost predicate Distinct(s: seq<int>) {
    forall i, j | 0 <= i < j < |s| :: s[i] != s[j]
  }

  function Insert(x: int, s: seq<int>): seq<int> {
    if s == [] || x < s[0] then [x] + s else [s[0]] + Insert(x, s[1..])
  }

  /** sort.Ints */
  function Sort(s: seq<int>): seq<int> {
    if s == [] then [] else Insert(s[0], Sort(s[1..]))
  }

  lemma {:induction false} InsertOK(x: int, s: seq<int>)
    requires Ascending(s) && x !in s
    ensures Ascending(Insert(x, s)) && |Insert(x, s)| == |s| + 1
    ensures forall y :: y in Insert(x, s) <==> y == x || y in s
  {
    if s != [] && x > s[0] {
      InsertOK(x, s[1..]);
      var rest := Insert(x, s[1..]);
      assert forall k | 0 <= k < |rest| :: rest[k] in rest;
    }
  }

  lemma {:induction false} SortOK(s: seq<int>)
    requires Distinct(s)
    ensures Ascending(Sort(s)) && |Sort(s)| == |s|
    ensures forall y :: y in Sort(s) <==> y in s
  {
    if s != [] {
      SortOK(s[1..]);
      InsertOK(s[0], Sort(s[1..]));
    }
  }

  /** The last element takes the place of the removed one. */
  function SwapRemoved(w: seq<Provider>, i: int): seq<Provider>
    requires 0 <= i < |w|
  {
    w[i := w[|w| - 1]][..|w| - 1]
  }

  lemma SwapRemove(w: seq<Provider>, i: nat)
    requires i < |w|
    ensures multiset(w) == multiset(SwapRemoved(w, i)) + multiset{w[i]}
  {
    var n := |w| - 1;
    if i == n {
      assert w == w[..n] + [w[n]] && w[i := w[n]][..n] == w[..n];
    } else {
      assert w == w[..i] + [w[i]] + w[i + 1..n] + [w[n]];
      assert w[i := w[n]][..n] == w[..i] + [w[n]] + w[i + 1..n];
    }
  }

  function Elements(s: seq<int>): set<int> {
    set x | x in s
  }

  ghost predicate Indexes(s: seq<int>, n: nat) {
    Distinct(s) && forall i | 0 <= i < |s| :: 0 <= s[i] < n
  }

  // -------------------------------------------------------------------- the client

  datatype Replacement = Promoted(block: Block) | NoWitnesses | LastError

  /** The order in which n answers to one round of requests come in. */
  type Arrivals = (nat, nat) -> seq<int>

  ghost predicate ArrivalsOK(arrivals: Arrivals) {
    forall sent: nat, n: nat :: |arrivals(sent, n)| == n && Indexes(arrivals(sent, n), n)
  }

  /** The primary, the witnesses, and how many requests have been sent. */
  datatype Providers = Providers(primary: Provider, witnesses: seq<Provider>, sent: nat)

  class Client {
    const env: Env
    const answers: Answers
    const arrivals: Arrivals
    var primary: Provider
    var witnesses: seq<Provider>
    var sent: nat

    ghost predicate ProvidersOK() {
      AnswersOK(answers) && ArrivalsOK(arrivals)
    }

    ghost function Now(): Providers reads this {
      Providers(primary, witnesses, sent)
    }

    /** Swap-removes witnesses by index, highest first: exactly the others are left. */
    method RemoveWitnesses(indexes: seq<int>) returns (ok: bool)
      requires Indexes(indexes, |witnesses|)
      modifies `witnesses
      ensures ok == (|indexes| < |old(witnesses)|)
      ensures !ok ==> witnesses == old(witnesses)
      ensures ok ==> |witnesses| == |old(witnesses)| - |indexes|
      ensures ok ==> multiset(witnesses) == multiset(Rest(old(witnesses), Elements(indexes), |old(witnesses)|))
    {
      if |witnesses| <= |indexes| { return false; }
      hide Removing, Sort, Rest, Elements, SwapRemoved;
      var sorted := Sort(indexes);
      ghost var all := witnesses;
      RemovingStart(all, indexes);
      var i := |sorted| - 1;
      while i >= 0
        invariant -1 <= i < |sorted| && Removing(all, witnesses, sorted, i)
      {
        RemovingStep(all, witnesses, sorted, i);
        witnesses := SwapRemoved(witnesses, sorted[i]);
        i := i - 1;
      }
      RemovingDone(all, witnesses, indexes);
      ok := true;
    }

    /** Makes a witness the primary and removes it and the bad ones from the witnesses.
        If none would be left, all of them stay. */
    method Promote(index: int, bad: seq<int>, remove: bool) returns (ok: bool)
      requires Indexes(bad, |witnesses|) && 0 <= index < |witnesses| && index !in bad
      modifies `primary, `witnesses
      ensures primary == old(witnesses)[index]
      ensures ok == (|bad| + 1 < |Retained(old(witnesses), old(primary), remove)|)
      ensures ok ==> ConservedBut(old(witnesses), old(primary), remove, bad, primary, witnesses)
      ensures ok ==> |witnesses| <= |old(witnesses)| - (if remove then 1 else 0)
      ensures !ok ==> primary in witnesses && |bad| + 1 >= |witnesses|
      ensures !ok ==> witnesses == Retained(old(witnesses), old(primary), remove)
    {
      if !remove {
        witnesses := witnesses + [primary];
      }
      hide Rest, Elements;
      primary := witnesses[index];
      ghost var all := witnesses;
      assert index !in bad ==> Indexes(bad + [index], |all|);
      ok := RemoveWitnesses(bad + [index]);
      PromotedRest(all, bad, index);
    }

    /** Promotes the first witness to answer with a block. The promoted witness is the
        primary, and with the remaining witnesses it makes up all providers there were,
        less the witnesses in `bad`, which failed to answer, and less the old primary
        only if it was to be removed. */
    method FindNewPrimary(height: int, remove: bool) returns (r: Replacement, ghost bad: seq<int>)
      requires ProvidersOK()
      modifies `primary, `witnesses, `sent
      ensures Replaces(answers, arrivals, old(Now()), height, remove, bad, r, Now())
      ensures Misbehaved(answers, old(sent), old(witnesses), height, bad)
      ensures r.Promoted? ==>
        && r.block.height == height
        && Answered(answers, old(sent), old(witnesses), height, primary, r.block)
        && ConservedBut(old(witnesses), old(primary), remove, bad, primary, witnesses)
        && |witnesses| <= |old(witnesses)| - (if remove then 1 else 0)
      ensures r.NoWitnesses? ==>
        && |bad| + 1 >= |witnesses|
        && (if old(witnesses) == [] then primary == old(primary) && witnesses == []
            else primary in witnesses && witnesses == Retained(old(witnesses), old(primary), remove))
      ensures r.LastError? ==>
        && primary == old(primary)
        && NobodyAnswered(answers, old(sent), old(witnesses), height)
        && if |bad| < |old(witnesses)|
           then multiset(witnesses) == multiset(Rest(old(witnesses), Elements(bad), |old(witnesses)|))
           else witnesses == old(witnesses)
    {
      hide Rest, Elements, AnswersOK, ArrivalsOK, Processed, ConservedBut;
      hide Misbehaved, Indexes, Answered, NobodyAnswered, Retained, Chosen;
      MisbehavedNone(answers, sent, witnesses, height);
      if |witnesses| == 0 { return NoWitnesses, []; }
      var n := |witnesses|;
      var order := arrivals(sent, n);
      ArrivalsFacts(arrivals, sent, n);
      var first := sent;
      sent := sent + n;
      var toRemove: seq<int> := [];
      ProcessedNone(answers, first, witnesses, height, order);
      var i := 0;
      while i < n
        invariant 0 <= i <= n && primary == old(primary) && witnesses == old(witnesses) && sent == first + n
        invariant Processed(answers, first, witnesses, height, order, i, toRemove)
      {
        ProcessOne(answers, first, witnesses, height, order, i, toRemove);
        var index := order[i];
        var answer := answers(first + index, witnesses[index], height);
        if answer.Found? {
          AnswersFacts(answers, first + index, witnesses[index], height);
          var ok := Promote(index, toRemove, remove);
          ChosenAt(answers, old(Now()), height, remove, order, i, toRemove, answer.block, ok, primary, witnesses);
          return if ok then Promoted(answer.block) else NoWitnesses, toRemove;
        }
        ProcessNext(answers, first, witnesses, height, order, i, toRemove);
        if !answer.Missing? {
          toRemove := toRemove + [index];
        }
        i := i + 1;
      }
      NoneFound(answers, first, witnesses, height, order, toRemove);
      var ok := RemoveWitnesses(toRemove);
      NoneChosen(answers, old(Now()), height, remove, order, toRemove, ok, witnesses);
      return LastError, toRemove;
    }

    /** A block from the primary, or from the witness that takes its place: the primary is
        dropped if it misbehaved, and becomes a witness if it merely had no block. */
    method LightBlockFromPrimary(height: int) returns (r: Option<Block>, ghost bad: seq<int>)
      requires ProvidersOK()
      modifies `primary, `witnesses, `sent
      ensures r.Some? ==> r.value.height == height && |witnesses| <= |old(witnesses)|
      ensures Fetches(answers, arrivals, old(Now()), height, r, Now())
      ensures var answer := answers(old(sent), old(primary), height);
        if answer.Found? || answer.Canceled?
        then primary == old(primary) && witnesses == old(witnesses) && sent == old(sent) + 1
             && r == if answer.Found? then Some(answer.block) else None
        else r.Some? ==> ConservedBut(old(witnesses), old(primary), answer.Faulty?, bad, primary, witnesses)
    {
      bad := [];
      var answer := answers(sent, primary, height);
      AnswersFacts(answers, sent, primary, height);
      sent := sent + 1;
      if answer.Found? { return Some(answer.block), []; }
      if answer.Canceled? { return None, []; }
      var replacement;
      replacement, bad := FindNewPrimary(height, answer.Faulty?);
      r := if replacement.Promoted? then Some(replacement.block) else None;
    }

    /** Verifies every block up to the target in turn, replacing a primary that sends an
        invalid one. Returns the trace handed to the detector, if it gets that far; it does
        when the primary serves a trace that verifies. */
    method VerifySequential(trusted: Block, target: Block, ghost honest: seq<Block>)
      returns (handed: Option<seq<Block>>)
      requires ProvidersOK()
      modifies `primary, `witnesses, `sent
      ensures handed.Some? ==> Sequential(env, trusted, target, handed.value)
      ensures exists walks ::
        WalkRun(env, answers, arrivals, target, Walk([trusted], old(Now())), walks, handed, Now())
      ensures Serves(env, answers, old(sent), old(primary), honest, trusted, target) ==>
        handed == Some(honest) && primary == old(primary) && witnesses == old(witnesses)
    {
      hide VerifyAdjacent, Rest, Elements, Serves, Sequential, Replaces, Fetches, ConservedBut, Misbehaved;
      hide WalkTo, WalksOn, WalkEnds, EndsThere, Answered, NobodyAnswered;
      var verified, trace := trusted, [trusted];
      ghost var first := Walk([trusted], Now());
      ghost var walks := [first];
      WalkStarts(env, answers, arrivals, target, first);
      var height := trusted.height + 1;
      if Serves(env, answers, sent, primary, honest, trusted, target) {
        ServedFirst(env, answers, sent, primary, honest, trusted, target);
      }
      while height <= target.height
        invariant trusted.height + 1 <= height && (height <= target.height + 1 || trace == [trusted])
        invariant |trace| == height - trusted.height && trace[0] == trusted && trace[|trace| - 1] == verified
        invariant forall i | 0 <= i < |trace| :: trace[i].height == trusted.height + i
        invariant forall i | 0 < i < |trace| ::
          && VerifyAdjacent(env, trace[i - 1], trace[i]) == Valid
          && trace[i].validatorsHash == trace[i - 1].nextValidatorsHash
        invariant height == target.height + 1 && |trace| > 1 ==> verified == target
        invariant |walks| > 0 && walks[0] == first
        invariant WalkTo(env, answers, arrivals, target, walks, Walk(trace, Now()))
        invariant Serves(env, answers, old(sent), old(primary), honest, trusted, target) ==>
          && primary == old(primary) && witnesses == old(witnesses) && trace <= honest
          && (height <= target.height ==> sent == old(sent) + |trace| - 1)
        decreases target.height - height, |witnesses|
      {
        if Serves(env, answers, old(sent), old(primary), honest, trusted, target) {
          ServedNext(env, answers, old(sent), old(primary), honest, trusted, target, trace);
        }
        ghost var w := Walk(trace, Now());
        var interim := target;
        if height != target.height {
          var fetched, bad := LightBlockFromPrimary(height);
          if fetched.None? {
            WalkStops(env, answers, arrivals, target, first, walks, w, None, Now(), Now());
            return None;
          }
          interim := fetched.value;
        }
        ghost var p := Now();
        assert Looks(answers, arrivals, target, w, Some(interim), p);
        var verdict := VerifyAdjacent(env, verified, interim);
        if verdict == InvalidHeader {
          if interim.height == target.height {
            WalkStops(env, answers, arrivals, target, first, walks, w, Some(interim), p, p);
            return None;
          }
          var replacement, bad := FindNewPrimary(target.height, true);
          if !replacement.Promoted? || replacement.block.hash != target.hash {
            assert Fails(answers, arrivals, target, p, Now());
            WalkStops(env, answers, arrivals, target, first, walks, w, Some(interim), p, Now());
            return None;
          }
          assert Recovers(answers, arrivals, target, p, replacement.block, Now());
          WalkMore(env, answers, arrivals, target, walks, w, interim, p, Walk(trace, Now()));
          walks := walks + [Walk(trace, Now())];
          continue;
        } else if verdict != Valid {
          WalkStops(env, answers, arrivals, target, first, walks, w, Some(interim), p, p);
          return None;
        }
        AdjacentLinks(env, verified, interim);
        verified := interim;
        trace := trace + [verified];
        height := height + 1;
        WalkMore(env, answers, arrivals, target, walks, w, interim, p, Walk(trace, Now()));
        walks := walks + [Walk(trace, Now())];
      }
      WalkArrives(env, answers, arrivals, target, first, walks, Walk(trace, Now()));
      SequentialTrace(env, trusted, target, trace);
      if Serves(env, answers, old(sent), old(primary), honest, trusted, target) {
        ServedAll(env, answers, old(sent), old(primary), honest, trusted, target, trace);
      }
      return Some(trace);
    }

    /** Bisects from the trusted block to the target, replacing a primary that sends an
        invalid block. Returns what is handed to the detector, if it gets that far: a
        bisection given up for want of trust hands over an empty trace, which the detector
        turns down. Providers are replaced only for an invalid block before the target. */
    method VerifySkippingAgainstPrimary(trusted: Block, target: Block) returns (handed: Option<seq<Block>>)
      requires ProvidersOK()
      modifies `primary, `witnesses, `sent
      ensures handed.Some? && handed.value != [] ==> Skipped(env, trusted, target, handed.value)
      ensures exists attempts ::
        AttemptRun(env, answers, arrivals, trusted, Attempt(target, old(Now())), attempts, handed, Now())
      ensures var r := Bisect(env, answers, old(primary), old(sent), trusted, [target], 0, [trusted]).0;
        !(r.Failed? && r.verdict == InvalidHeader && r.height != target.height) ==>
          && primary == old(primary) && witnesses == old(witnesses)
          && handed == if r.Verified? then Some(r.trace) else if r.Untrusted? then Some([]) else None
      decreases |witnesses|
    {
      hide Rest, Elements, Bisect, SkipRun, Replaces, AttemptRun, ConservedBut, Misbehaved;
      ghost var a := Attempt(target, Now());
      var r;
      r, sent := VerifySkipping(env, answers, primary, sent, trusted, target);
      ghost var p := Now();
      assert Bisected(env, answers, trusted, a, r, sent);
      match r
      case Verified(trace) =>
        AttemptOver(env, answers, arrivals, trusted, a, r, sent, Some(trace), p);
        return Some(trace);
      case Untrusted =>
        AttemptOver(env, answers, arrivals, trusted, a, r, sent, Some([]), p);
        return Some([]);
      case SourceFailed(_, _) =>
        AttemptOver(env, answers, arrivals, trusted, a, r, sent, None, p);
        return None;
      case Failed(_, height, verdict) =>
        if verdict != InvalidHeader || height == target.height {
          AttemptOver(env, answers, arrivals, trusted, a, r, sent, None, p);
          return None;
        }
        var replacement, bad := FindNewPrimary(target.height, true);
        if !replacement.Promoted? || replacement.block.hash != target.hash {
          assert Fails(answers, arrivals, target, p, Now());
          AttemptOver(env, answers, arrivals, trusted, a, r, p.sent, None, Now());
          return None;
        }
        ghost var b := Attempt(replacement.block, Now());
        assert Recovers(answers, arrivals, target, p, b.target, b.providers);
        assert Repeats(env, answers, arrivals, trusted, a, r, p.sent, b);
        handed := VerifySkippingAgainstPrimary(trusted, replacement.block);
        ghost var attempts :| AttemptRun(env, answers, arrivals, trusted, b, attempts, handed, Now());
        AttemptMore(env, answers, arrivals, trusted, a, b, attempts, handed, Now());
    }
  }

  /** The first `k` answers to arrive have no block, and `bad` are those of them that failed.
      The next one, if there is one, is of the witness that becomes the primary; without one
      the bad witnesses go, if others are left. */
  ghost predicate Chosen(answers: Answers, a: Providers, height: int, remove: bool, order: seq<int>, k: nat,
                         bad: seq<int>, r: Replacement, primary: Provider, witnesses: seq<Provider>) {
    && Processed(answers, a.sent, a.witnesses, height, order, k, bad)
    && if k == |order| then
         && r.LastError? && primary == a.primary
         && if |bad| < |a.witnesses|
            then multiset(witnesses) == multiset(Rest(a.witnesses, Elements(bad), |a.witnesses|))
            else witnesses == a.witnesses
       else
         && 0 <= order[k] < |a.witnesses| && primary == a.witnesses[order[k]]
         && var answer, all := answers(a.sent + order[k], primary, height), Retained(a.witnesses, a.primary, remove);
         && answer.Found?
         && if |bad| + 1 < |all|
            then r == Promoted(answer.block) && ConservedBut(a.witnesses, a.primary, remove, bad, primary, witnesses)
            else r.NoWitnesses? && witnesses == all
  }

  /** What becomes of the providers when a new primary is looked for, all witnesses being
      asked at once. */
  ghost predicate Replaces(answers: Answers, arrivals: Arrivals, a: Providers, height: int, remove: bool,
                           bad: seq<int>, r: Replacement, b: Providers) {
    if a.witnesses == [] then r.NoWitnesses? && b == a
    else
      && b.sent == a.sent + |a.witnesses|
      && exists k ::
           Chosen(answers, a, height, remove, arrivals(a.sent, |a.witnesses|), k, bad, r, b.primary, b.witnesses)
  }

  ghost predicate FallsBack(answers: Answers, arrivals: Arrivals, a: Providers, height: int, remove: bool,
                            r: Option<Block>, b: Providers) {
    exists bad, replacement ::
      && Replaces(answers, arrivals, a, height, remove, bad, replacement, b)
      && r == if replacement.Promoted? then Some(replacement.block) else None
  }

  /** A block is asked for from the primary. One that has none becomes a witness, one that
      fails is dropped, and the block is that of the new primary. */
  ghost predicate Fetches(answers: Answers, arrivals: Arrivals, a: Providers, height: int, r: Option<Block>,
                          b: Providers) {
    match answers(a.sent, a.primary, height)
    case Found(block) => r == Some(block) && b == a.(sent := a.sent + 1)
    case Canceled => r == None && b == a.(sent := a.sent + 1)
    case answer => FallsBack(answers, arrivals, a.(sent := a.sent + 1), height, answer.Faulty?, r, b)
  }

  // ------------------------------------------------- verification, block by block

  /** The blocks verified so far, and the providers. */
  datatype Walk = Walk(trace: seq<Block>, providers: Providers)

  /** The block looked at next, and the providers after it has been asked for. */
  ghost predicate Looks(answers: Answers, arrivals: Arrivals, target: Block, w: Walk, interim: Option<Block>,
                        p: Providers) {
    && |w.trace| > 0
    && var height := w.trace[|w.trace| - 1].height + 1;
    if height == target.height then interim == Some(target) && p == w.providers
    else Fetches(answers, arrivals, w.providers, height, interim, p)
  }

  /** A new primary is found that has the target as well, and the old one is dropped. */
  ghost predicate Recovers(answers: Answers, arrivals: Arrivals, target: Block, p: Providers, block: Block,
                           q: Providers) {
    && block.hash == target.hash
    && exists bad :: Replaces(answers, arrivals, p, target.height, true, bad, Promoted(block), q)
  }

  /** Or it is not, and this is what becomes of the providers. */
  ghost predicate Fails(answers: Answers, arrivals: Arrivals, target: Block, p: Providers, q: Providers) {
    exists bad, r ::
      && Replaces(answers, arrivals, p, target.height, true, bad, r, q)
      && (r.Promoted? ==> r.block.hash != target.hash)
  }

  /** One block further: the next one is accepted, or it is invalid and not the target, and
      is asked for again from another primary. */
  ghost predicate WalksOn(env: Env, answers: Answers, arrivals: Arrivals, target: Block, w: Walk, interim: Block,
                          p: Providers, w': Walk) {
    && Looks(answers, arrivals, target, w, Some(interim), p)
    && match VerifyAdjacent(env, w.trace[|w.trace| - 1], interim)
       case Valid => w' == Walk(w.trace + [interim], p)
       case InvalidHeader =>
         && interim.height != target.height && w'.trace == w.trace
         && exists block :: Recovers(answers, arrivals, target, p, block, w'.providers)
       case _ => false
  }

  /** The end: above the target; or a block does not come, is the target and invalid, is not
      valid for another reason, or no other primary has the target. */
  ghost predicate WalkEnds(env: Env, answers: Answers, arrivals: Arrivals, target: Block, w: Walk,
                           interim: Option<Block>, p: Providers, handed: Option<seq<Block>>, q: Providers) {
    && |w.trace| > 0
    && var last := w.trace[|w.trace| - 1];
    if last.height >= target.height then handed == Some(w.trace) && q == w.providers
    else
      && handed == None && Looks(answers, arrivals, target, w, interim, p)
      && if interim.None? then q == p
         else
           match VerifyAdjacent(env, last, interim.value)
           case Valid => false
           case InvalidHeader =>
             if interim.value.height == target.height then q == p else Fails(answers, arrivals, target, p, q)
           case _ => q == p
  }

  ghost predicate OneOn(env: Env, answers: Answers, arrivals: Arrivals, target: Block, w: Walk, w': Walk) {
    exists interim, p :: WalksOn(env, answers, arrivals, target, w, interim, p, w')
  }

  ghost predicate WalkTo(env: Env, answers: Answers, arrivals: Arrivals, target: Block, walks: seq<Walk>, w: Walk) {
    && |walks| > 0 && walks[|walks| - 1] == w
    && forall i | 0 <= i < |walks| - 1 :: OneOn(env, answers, arrivals, target, walks[i], walks[i + 1])
  }

  ghost predicate EndsThere(env: Env, answers: Answers, arrivals: Arrivals, target: Block, w: Walk,
                            handed: Option<seq<Block>>, q: Providers) {
    exists interim, p :: WalkEnds(env, answers, arrivals, target, w, interim, p, handed, q)
  }

  /** Sequential verification, from its first block to its end. */
  ghost predicate WalkRun(env: Env, answers: Answers, arrivals: Arrivals, target: Block, first: Walk, walks: seq<Walk>,
                          handed: Option<seq<Block>>, q: Providers) {
    && |walks| > 0 && walks[0] == first && WalkTo(env, answers, arrivals, target, walks, walks[|walks| - 1])
    && EndsThere(env, answers, arrivals, target, walks[|walks| - 1], handed, q)
  }

  lemma WalkStarts(env: Env, answers: Answers, arrivals: Arrivals, target: Block, first: Walk)
    ensures WalkTo(env, answers, arrivals, target, [first], first)
  {
  }

  /** The next block leads on. */
  lemma WalkMore(env: Env, answers: Answers, arrivals: Arrivals, target: Block, walks: seq<Walk>, w: Walk,
                 interim: Block, p: Providers, w': Walk)
    requires WalkTo(env, answers, arrivals, target, walks, w)
    requires Looks(answers, arrivals, target, w, Some(interim), p)
    requires var verdict := VerifyAdjacent(env, w.trace[|w.trace| - 1], interim);
      || (verdict == Valid && w' == Walk(w.trace + [interim], p))
      || (verdict == InvalidHeader && interim.height != target.height && w'.trace == w.trace
          && exists block :: Recovers(answers, arrivals, target, p, block, w'.providers))
    ensures WalkTo(env, answers, arrivals, target, walks + [w'], w')
  {
    assert OneOn(env, answers, arrivals, target, w, w') by {
      hide VerifyAdjacent, Looks, Recovers, WalkTo;
      assert WalksOn(env, answers, arrivals, target, w, interim, p, w');
    }
    hide OneOn, Looks, Recovers, VerifyAdjacent;
  }

  /** It ends below the target. */
  lemma WalkStops(env: Env, answers: Answers, arrivals: Arrivals, target: Block, first: Walk, walks: seq<Walk>, w: Walk,
                  interim: Option<Block>, p: Providers, q: Providers)
    requires |walks| > 0 && walks[0] == first && WalkTo(env, answers, arrivals, target, walks, w)
    requires Looks(answers, arrivals, target, w, interim, p) && w.trace[|w.trace| - 1].height < target.height
    requires interim.None? ==> q == p
    requires interim.Some? ==> var verdict := VerifyAdjacent(env, w.trace[|w.trace| - 1], interim.value);
      if verdict == InvalidHeader && interim.value.height != target.height then Fails(answers, arrivals, target, p, q)
      else verdict != Valid && q == p
    ensures WalkRun(env, answers, arrivals, target, first, walks, None, q)
  {
    hide VerifyAdjacent, Fetches, Fails, OneOn;
    assert WalkEnds(env, answers, arrivals, target, w, interim, p, None, q);
  }

  /** It ends at the target. */
  lemma WalkArrives(env: Env, answers: Answers, arrivals: Arrivals, target: Block, first: Walk, walks: seq<Walk>,
                    w: Walk)
    requires |walks| > 0 && walks[0] == first && WalkTo(env, answers, arrivals, target, walks, w)
    requires |w.trace| > 0 && w.trace[|w.trace| - 1].height >= target.height
    ensures WalkRun(env, answers, arrivals, target, first, walks, Some(w.trace), w.providers)
  {
    hide OneOn;
    assert WalkEnds(env, answers, arrivals, target, w, None, w.providers, Some(w.trace), w.providers);
  }

  // ---------------------------------------------- bisection, primary by primary

  /** A target to bisect to, and the providers. */
  datatype Attempt = Attempt(target: Block, providers: Providers)

  /** Bisection from the primary ends like this. */
  ghost predicate Bisected(env: Env, answers: Answers, trusted: Block, a: Attempt, r: SkipResult, sent': nat) {
    exists run ::
      SkipRun(env, answers, a.providers.primary, Probe(trusted, [a.target], 0, a.providers.sent), run, r, sent')
  }

  /** It met an invalid block before the target. */
  predicate Deceived(a: Attempt, r: SkipResult) {
    r.Failed? && r.verdict == InvalidHeader && r.height != a.target.height
  }

  /** Then it is repeated from another primary that has the target. */
  ghost predicate Repeats(env: Env, answers: Answers, arrivals: Arrivals, trusted: Block, a: Attempt, r: SkipResult,
                          sent': nat, b: Attempt) {
    && Bisected(env, answers, trusted, a, r, sent') && Deceived(a, r)
    && Recovers(answers, arrivals, a.target, a.providers.(sent := sent'), b.target, b.providers)
  }

  /** Else it is over: nothing is handed over if there is no such primary, a block does not
      come, or the failure is of another kind. */
  ghost predicate Concludes(env: Env, answers: Answers, arrivals: Arrivals, trusted: Block, a: Attempt, r: SkipResult,
                            sent': nat, handed: Option<seq<Block>>, q: Providers) {
    && Bisected(env, answers, trusted, a, r, sent')
    && if Deceived(a, r)
       then handed == None && Fails(answers, arrivals, a.target, a.providers.(sent := sent'), q)
       else q == a.providers.(sent := sent')
            && handed == if r.Verified? then Some(r.trace) else if r.Untrusted? then Some([]) else None
  }

  ghost predicate OneMore(env: Env, answers: Answers, arrivals: Arrivals, trusted: Block, a: Attempt, b: Attempt) {
    exists r, sent' :: Repeats(env, answers, arrivals, trusted, a, r, sent', b)
  }

  ghost predicate Over(env: Env, answers: Answers, arrivals: Arrivals, trusted: Block, a: Attempt,
                       handed: Option<seq<Block>>, q: Providers) {
    exists r, sent' :: Concludes(env, answers, arrivals, trusted, a, r, sent', handed, q)
  }

  /** Skipping verification, from its first attempt to its last. */
  ghost predicate AttemptRun(env: Env, answers: Answers, arrivals: Arrivals, trusted: Block, first: Attempt,
                             attempts: seq<Attempt>, handed: Option<seq<Block>>, q: Providers) {
    && |attempts| > 0 && attempts[0] == first
    && (forall i | 0 <= i < |attempts| - 1 :: OneMore(env, answers, arrivals, trusted, attempts[i], attempts[i + 1]))
    && Over(env, answers, arrivals, trusted, attempts[|attempts| - 1], handed, q)
  }

  lemma AttemptOver(env: Env, answers: Answers, arrivals: Arrivals, trusted: Block, a: Attempt, r: SkipResult,
                    sent': nat, handed: Option<seq<Block>>, q: Providers)
    requires Concludes(env, answers, arrivals, trusted, a, r, sent', handed, q)
    ensures AttemptRun(env, answers, arrivals, trusted, a, [a], handed, q)
  {
    hide Concludes, OneMore;
  }

  lemma AttemptMore(env: Env, answers: Answers, arrivals: Arrivals, trusted: Block, a: Attempt, b: Attempt,
                    attempts: seq<Attempt>, handed: Option<seq<Block>>, q: Providers)
    requires OneMore(env, answers, arrivals, trusted, a, b)
    requires AttemptRun(env, answers, arrivals, trusted, b, attempts, handed, q)
    ensures AttemptRun(env, answers, arrivals, trusted, a, [a] + attempts, handed, q)
  {
    hide OneMore, Over;
    assert forall i | 0 <= i < |attempts| :: ([a] + attempts)[i + 1] == attempts[i];
  }

  lemma ChosenAt(answers: Answers, a: Providers, height: int, remove: bool, order: seq<int>, k: nat, bad: seq<int>,
                 block: Block, ok: bool, primary: Provider, witnesses: seq<Provider>)
    requires Processed(answers, a.sent, a.witnesses, height, order, k, bad) && k < |order|
    requires 0 <= order[k] < |a.witnesses| && primary == a.witnesses[order[k]]
    requires answers(a.sent + order[k], primary, height) == Found(block)
    requires ok == (|bad| + 1 < |Retained(a.witnesses, a.primary, remove)|)
    requires ok ==> ConservedBut(a.witnesses, a.primary, remove, bad, primary, witnesses)
    requires !ok ==> witnesses == Retained(a.witnesses, a.primary, remove)
    ensures Chosen(answers, a, height, remove, order, k, bad, if ok then Promoted(block) else NoWitnesses,
                   primary, witnesses)
  {
    hide Processed, ConservedBut, Retained;
  }

  lemma NoneChosen(answers: Answers, a: Providers, height: int, remove: bool, order: seq<int>, bad: seq<int>,
                   ok: bool, witnesses: seq<Provider>)
    requires Processed(answers, a.sent, a.witnesses, height, order, |order|, bad)
    requires ok == (|bad| < |a.witnesses|)
    requires ok ==> multiset(witnesses) == multiset(Rest(a.witnesses, Elements(bad), |a.witnesses|))
    requires !ok ==> witnesses == a.witnesses
    ensures Chosen(answers, a, height, remove, order, |order|, bad, LastError, a.primary, witnesses)
  {
    hide Processed, Rest, Elements;
  }

  /** The witnesses listed as bad answered this round with neither a block nor a benign error. */
  ghost predicate Misbehaved(answers: Answers, first: nat, witnesses: seq<Provider>, height: int, bad: seq<int>) {
    && Indexes(bad, |witnesses|)
    && forall i | 0 <= i < |bad| :: FailedToAnswer(answers(first + bad[i], witnesses[bad[i]], height))
  }

  ghost predicate Answered(answers: Answers, first: nat, witnesses: seq<Provider>, height: int, p: Provider, b: Block) {
    exists i :: 0 <= i < |witnesses| && p == witnesses[i] && answers(first + i, witnesses[i], height) == Found(b)
  }

  ghost predicate NobodyAnswered(answers: Answers, first: nat, witnesses: seq<Provider>, height: int) {
    forall i | 0 <= i < |witnesses| :: !answers(first + i, witnesses[i], height).Found?
  }

  function Retained(witnesses: seq<Provider>, primary: Provider, remove: bool): seq<Provider> {
    if remove then witnesses else witnesses + [primary]
  }

  /** The providers after a replacement are those before it, less the bad witnesses and,
      if asked, the old primary. */
  ghost predicate ConservedBut(witnesses: seq<Provider>, primary: Provider, remove: bool, bad: seq<int>,
                               primary': Provider, witnesses': seq<Provider>) {
    var all := Retained(witnesses, primary, remove);
    && multiset{primary'} + multiset(witnesses') == multiset(Rest(all, Elements(bad), |all|))
    && |witnesses'| == |all| - |bad| - 1
  }

  /** Spelled out: with `remove` the old primary is gone, without it it is now a witness. */
  lemma ProvidersConserved(witnesses: seq<Provider>, primary: Provider, remove: bool, bad: seq<int>,
                           primary': Provider, witnesses': seq<Provider>)
    requires ConservedBut(witnesses, primary, remove, bad, primary', witnesses') && Indexes(bad, |witnesses|)
    ensures multiset{primary'} + multiset(witnesses')
         == multiset(Rest(witnesses, Elements(bad), |witnesses|)) + if remove then multiset{} else multiset{primary}
  {
    RestAppend(witnesses, primary, Elements(bad), |witnesses|);
  }

  predicate FailedToAnswer(r: Response) {
    r.Faulty? || r.Canceled?
  }

  /** Every height from the trusted block to the target, each linked to the one before by
      the hash of the next validators. */
  ghost predicate Sequential(env: Env, trusted: Block, target: Block, trace: seq<Block>) {
    && |trace| > 0 && trace[0] == trusted
    && (if target.height > trusted.height
        then |trace| == target.height - trusted.height + 1 && trace[|trace| - 1] == target
        else trace == [trusted])
    && (forall i | 0 < i < |trace| ::
          && trace[i].height == trace[i - 1].height + 1
          && trace[i].validatorsHash == trace[i - 1].nextValidatorsHash
          && VerifyAdjacent(env, trace[i - 1], trace[i]) == Valid)
  }

  /** The primary answers every request on the way with the blocks of this trace. */
  ghost predicate Serves(env: Env, answers: Answers, sent: nat, primary: Provider, honest: seq<Block>,
                         trusted: Block, target: Block) {
    && Sequential(env, trusted, target, honest)
    && forall i | 0 < i < |honest| - 1 :: answers(sent + i - 1, primary, honest[i].height) == Found(honest[i])
  }

  lemma {:induction false} SequentialHeight(env: Env, trusted: Block, target: Block, trace: seq<Block>, i: nat)
    requires Sequential(env, trusted, target, trace) && i < |trace|
    ensures trace[i].height == trusted.height + i
  {
    if i > 0 {
      SequentialHeight(env, trusted, target, trace, i - 1);
    }
  }

  lemma SequentialTrace(env: Env, trusted: Block, target: Block, trace: seq<Block>)
    requires |trace| > 0 && trace[0] == trusted
    requires forall i | 0 <= i < |trace| :: trace[i].height == trusted.height + i
    requires forall i | 0 < i < |trace| ::
      VerifyAdjacent(env, trace[i - 1], trace[i]) == Valid && trace[i].validatorsHash == trace[i - 1].nextValidatorsHash
    requires if target.height > trusted.height
      then |trace| == target.height - trusted.height + 1 && trace[|trace| - 1] == target else trace == [trusted]
    ensures Sequential(env, trusted, target, trace)
  {
    hide VerifyAdjacent;
  }

  lemma ServedFirst(env: Env, answers: Answers, sent: nat, primary: Provider, honest: seq<Block>,
                    trusted: Block, target: Block)
    requires Serves(env, answers, sent, primary, honest, trusted, target)
    ensures [trusted] <= honest
  {
  }

  lemma ServedNext(env: Env, answers: Answers, sent: nat, primary: Provider, honest: seq<Block>,
                   trusted: Block, target: Block, trace: seq<Block>)
    requires Serves(env, answers, sent, primary, honest, trusted, target)
    requires 0 < |trace| <= target.height - trusted.height && trace <= honest
    ensures |trace| < |honest| && honest[|trace|].height == trusted.height + |trace|
    ensures VerifyAdjacent(env, trace[|trace| - 1], honest[|trace|]) == Valid
    ensures trusted.height + |trace| == target.height ==> honest[|trace|] == target
    ensures trusted.height + |trace| < target.height ==>
      answers(sent + |trace| - 1, primary, trusted.height + |trace|) == Found(honest[|trace|])
  {
    SequentialHeight(env, trusted, target, honest, |trace|);
  }

  lemma ServedAll(env: Env, answers: Answers, sent: nat, primary: Provider, honest: seq<Block>,
                  trusted: Block, target: Block, trace: seq<Block>)
    requires Serves(env, answers, sent, primary, honest, trusted, target) && trace <= honest
    requires Sequential(env, trusted, target, trace)
    ensures trace == honest
  {
  }

  /** A linked trace from the trusted block to a block with the target's hash. */
  ghost predicate Skipped(env: Env, trusted: Block, target: Block, trace: seq<Block>) {
    && Linked(env, trace) && |trace| >= 2 && trace[0] == trusted
    && trace[|trace| - 1].hash == target.hash && trace[|trace| - 1].height == target.height
  }

  /** Both ways of verifying hand over a trace that grows in height and time. */
  lemma SequentialLinked(env: Env, trusted: Block, target: Block, trace: seq<Block>)
    requires Sequential(env, trusted, target, trace)
    ensures Linked(env, trace)
  {
  }

  lemma AdjacentLinks(env: Env, a: Block, b: Block)
    requires VerifyAdjacent(env, a, b) == Valid
    ensures b.height == a.height + 1 && b.validatorsHash == a.nextValidatorsHash
  {
  }

  lemma ArrivalsFacts(arrivals: Arrivals, sent: nat, n: nat)
    requires ArrivalsOK(arrivals)
    ensures |arrivals(sent, n)| == n && Indexes(arrivals(sent, n), n)
  {
  }

  lemma AnswersFacts(answers: Answers, n: nat, p: Provider, h: int)
    requires AnswersOK(answers)
    ensures answers(n, p, h).Found? ==> answers(n, p, h).block.height == h
  {
  }

  /** Every index is among n distinct indexes below n. */
  lemma AllArrived(order: seq<int>, n: nat)
    requires |order| == n && Indexes(order, n)
    ensures forall i | 0 <= i < n :: i in order
  {
    var below := Below(n);
    DistinctSize(order);
    SubsetOfSameSize(Elements(order), below);
    forall i | 0 <= i < n ensures i in order {
      assert i in Elements(order);
    }
  }

  /** The first `i` answers to arrive: none had a block, and `bad` lists those that failed. */
  ghost predicate Processed(answers: Answers, first: nat, witnesses: seq<Provider>, height: int, order: seq<int>,
                            i: nat, bad: seq<int>) {
    && i <= |order| == |witnesses| && Indexes(order, |order|) && Distinct(bad)
    && (forall j :: j in bad <==> j in order[..i] && Failing(answers, first, witnesses, height, j))
    && (forall k | 0 <= k < i :: !answers(first + order[k], witnesses[order[k]], height).Found?)
  }

  ghost predicate Failing(answers: Answers, first: nat, witnesses: seq<Provider>, height: int, j: int) {
    0 <= j < |witnesses| && FailedToAnswer(answers(first + j, witnesses[j], height))
  }

  lemma BadIndexes(answers: Answers, first: nat, witnesses: seq<Provider>, height: int, order: seq<int>,
                   i: nat, bad: seq<int>)
    requires Processed(answers, first, witnesses, height, order, i, bad)
    ensures Indexes(bad, |witnesses|) && Misbehaved(answers, first, witnesses, height, bad)
  {
    forall k | 0 <= k < |bad| ensures Failing(answers, first, witnesses, height, bad[k]) {
      assert bad[k] in bad;
    }
  }

  lemma MisbehavedNone(answers: Answers, first: nat, witnesses: seq<Provider>, height: int)
    ensures Misbehaved(answers, first, witnesses, height, [])
  {
  }

  lemma ProcessedNone(answers: Answers, first: nat, witnesses: seq<Provider>, height: int, order: seq<int>)
    requires |order| == |witnesses| && Indexes(order, |order|)
    ensures Processed(answers, first, witnesses, height, order, 0, [])
  {
  }

  lemma ProcessOne(answers: Answers, first: nat, witnesses: seq<Provider>, height: int, order: seq<int>,
                   i: nat, bad: seq<int>)
    requires Processed(answers, first, witnesses, height, order, i, bad) && i < |order|
    ensures 0 <= order[i] < |witnesses| && order[i] !in bad && Indexes(bad, |witnesses|)
    ensures Misbehaved(answers, first, witnesses, height, bad)
    ensures answers(first + order[i], witnesses[order[i]], height).Found? ==>
      Answered(answers, first, witnesses, height, witnesses[order[i]],
        answers(first + order[i], witnesses[order[i]], height).block)
  {
    BadIndexes(answers, first, witnesses, height, order, i, bad);
    assert order[i] !in order[..i];
  }

  lemma ProcessNext(answers: Answers, first: nat, witnesses: seq<Provider>, height: int, order: seq<int>,
                    i: nat, bad: seq<int>)
    requires Processed(answers, first, witnesses, height, order, i, bad) && i < |order|
    requires !answers(first + order[i], witnesses[order[i]], height).Found?
    ensures Processed(answers, first, witnesses, height, order, i + 1,
                      if FailedToAnswer(answers(first + order[i], witnesses[order[i]], height)) then bad + [order[i]]
                      else bad)
  {
    assert order[..i + 1] == order[..i] + [order[i]];
    assert order[i] !in order[..i];
    assert forall j :: j in order[..i + 1] <==> j in order[..i] || j == order[i];
  }

  lemma NoneFound(answers: Answers, first: nat, witnesses: seq<Provider>, height: int, order: seq<int>, bad: seq<int>)
    requires Processed(answers, first, witnesses, height, order, |order|, bad)
    ensures NobodyAnswered(answers, first, witnesses, height) && Misbehaved(answers, first, witnesses, height, bad)
    ensures Indexes(bad, |witnesses|)
  {
    BadIndexes(answers, first, witnesses, height, order, |order|, bad);
    AllArrived(order, |order|);
    forall i | 0 <= i < |witnesses| ensures !answers(first + i, witnesses[i], height).Found? {
      assert i in order;
    }
  }

  lemma {:induction false} DistinctSize(s: seq<int>)
    requires Distinct(s)
    ensures |Elements(s)| == |s|
  {
    if |s| > 0 {
      var t := s[..|s| - 1];
      DistinctSize(t);
      assert Elements(s) == Elements(t) + {s[|s| - 1]};
    }
  }

  lemma SubsetOfSameSize(a: set<int>, b: set<int>)
    requires a <= b && |a| == |b|
    ensures a == b
  {
    assert |b - a| == |b| - |a|;
  }

  lemma PromotedRest(all: seq<Provider>, bad: seq<int>, index: nat)
    requires Indexes(bad, |all|) && index < |all| && index !in bad
    ensures multiset{all[index]} + multiset(Rest(all, Elements(bad + [index]), |all|))
         == multiset(Rest(all, Elements(bad), |all|))
  {
    RestMark(all, Elements(bad), |all|, index);
    assert Elements(bad + [index]) == Elements(bad) + {index};
  }

  /** All but the first `i + 1` of the sorted indexes are removed, and the rest still
      point at what they did. */
  ghost predicate Removing(all: seq<Provider>, w: seq<Provider>, sorted: seq<int>, i: int) {
    && -1 <= i < |sorted| && Ascending(sorted) && |w| == |all| - (|sorted| - 1 - i)
    && multiset(w) == multiset(Rest(all, Elements(sorted[i + 1..]), |all|))
    && (forall k | 0 <= k <= i :: 0 <= sorted[k] < |w|)
    && (i >= 0 ==> forall p | 0 <= p <= sorted[i] :: w[p] == all[p])
  }

  lemma RemovingStart(all: seq<Provider>, indexes: seq<int>)
    requires Indexes(indexes, |all|)
    ensures |Sort(indexes)| == |indexes| && Removing(all, all, Sort(indexes), |indexes| - 1)
  {
    var sorted := Sort(indexes);
    SortOK(indexes);
    NoElements(sorted[|sorted|..]);
    RestUnmarked(all, {}, |all|);
    assert all[..|all|] == all;
    forall k | 0 <= k < |sorted| ensures 0 <= sorted[k] < |all| {
      assert sorted[k] in sorted;
    }
  }

  lemma RemovingStep(all: seq<Provider>, w: seq<Provider>, sorted: seq<int>, i: nat)
    requires Removing(all, w, sorted, i)
    ensures 0 <= sorted[i] < |w| && Removing(all, SwapRemoved(w, sorted[i]), sorted, i - 1)
  {
    hide Rest, Elements;
    var x := sorted[i];
    var gone := Elements(sorted[i + 1..]);
    TailElements(sorted, i);
    RestMark(all, gone, |all|, x);
    SwapRemove(w, x);
    Cancel(multiset(SwapRemoved(w, x)), multiset(Rest(all, gone + {x}, |all|)), w[x]);
  }

  lemma RemovingDone(all: seq<Provider>, w: seq<Provider>, indexes: seq<int>)
    requires Distinct(indexes) && Removing(all, w, Sort(indexes), -1)
    ensures |w| == |all| - |indexes| && multiset(w) == multiset(Rest(all, Elements(indexes), |all|))
  {
    SortOK(indexes);
    assert Sort(indexes)[0..] == Sort(indexes);
    SameElements(Sort(indexes), indexes);
  }

  lemma NoElements(s: seq<int>)
    requires s == []
    ensures Elements(s) == {}
  {
  }

  lemma SameElements(s: seq<int>, t: seq<int>)
    requires forall x :: x in s <==> x in t
    ensures Elements(s) == Elements(t)
  {
    assert forall x :: x in Elements(s) <==> x in Elements(t);
  }

  lemma TailElements(s: seq<int>, i: nat)
    requires i < |s| && Ascending(s)
    ensures Elements(s[i..]) == Elements(s[i + 1..]) + {s[i]} && s[i] !in Elements(s[i + 1..])
  {
    assert s[i..] == [s[i]] + s[i + 1..];
  }

  lemma Cancel(a: multiset<Provider>, b: multiset<Provider>, x: Provider)
    requires a + multiset{x} == b + multiset{x}
    ensures a == b
  {
    forall y ensures a[y] == b[y] {
      assert (a + multiset{x})[y] == (b + multiset{x})[y];
    }
  }
}
