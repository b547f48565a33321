/** Header verification of the light client, and bisection over it. */
module LightVerifier {

  /** A signed header with its validator set, voter set and commit. */
  datatype Block = Block(chainID: int, height: int, time: int, hash: int,
    validatorsHash: int, nextValidatorsHash: int, votersHash: int,
    validators: int, voters: int, commit: int)

  datatype Tally = Enough | NotEnough | Malformed

  /** Hashes and commit checks, not interpreted, and the client's settings. */
  datatype Env = Env(
    validBasic: (int, Block) -> bool,
    validatorsHash: int -> int,
    votersHash: int -> int,
    trusting: (int, int, int) -> Tally,
    signedByVoters: (int, Block) -> bool,
    now: int, trustingPeriod: int, maxClockDrift: int)

  datatype Verdict = Valid | OldHeaderExpired | InvalidHeader | CantBeTrusted | OtherError

  predicate Expired(env: Env, trusted: Block) {
    !(trusted.time + env.trustingPeriod > env.now)
  }

  /** verifyNewHeaderAndValsAndVoters */
  predicate NewHeaderOK(env: Env, trusted: Block, untrusted: Block) {
    && env.validBasic(trusted.chainID, untrusted)
    && !(untrusted.height <= trusted.height)
    && untrusted.time > trusted.time
    && untrusted.time < env.now + env.maxClockDrift
    && untrusted.validatorsHash == env.validatorsHash(untrusted.validators)
    && untrusted.votersHash == env.votersHash(untrusted.voters)
  }

  function VerifyNonAdjacent(env: Env, trusted: Block, untrusted: Block): Verdict {
    if untrusted.height == trusted.height + 1 then OtherError
    else if Expired(env, trusted) then OldHeaderExpired
    else if !NewHeaderOK(env, trusted, untrusted) then InvalidHeader
    else
      match env.trusting(trusted.voters, trusted.chainID, untrusted.commit)
      case NotEnough => CantBeTrusted
      case Malformed => OtherError
      case Enough => if env.signedByVoters(trusted.chainID, untrusted) then Valid else InvalidHeader
  }

  function VerifyAdjacent(env: Env, trusted: Block, untrusted: Block): Verdict {
    if untrusted.height != trusted.height + 1 then OtherError
    else if Expired(env, trusted) then OldHeaderExpired
    else if !NewHeaderOK(env, trusted, untrusted) then InvalidHeader
    else if untrusted.validatorsHash != trusted.nextValidatorsHash then OtherError
    else if env.signedByVoters(trusted.chainID, untrusted) then Valid
    else InvalidHeader
  }

  function Verify(env: Env, trusted: Block, untrusted: Block): Verdict {
    if untrusted.height != trusted.height + 1 then VerifyNonAdjacent(env, trusted, untrusted)
    else VerifyAdjacent(env, trusted, untrusted)
  }

  predicate Fresh(env: Env, trusted: Block) {
    env.now < trusted.time + env.trustingPeriod
  }

  /** The header is well formed, newer than the trusted one, not from the future, and comes
      with its own validators and voters. */
  predicate GoodHeader(env: Env, trusted: Block, untrusted: Block) {
    && env.validBasic(trusted.chainID, untrusted)
    && trusted.height < untrusted.height && trusted.time < untrusted.time
    && untrusted.time < env.now + env.maxClockDrift
    && env.validatorsHash(untrusted.validators) == untrusted.validatorsHash
    && env.votersHash(untrusted.voters) == untrusted.votersHash
  }

  predicate Adjacent(trusted: Block, untrusted: Block) {
    untrusted.height == trusted.height + 1
  }

  /** The trusted block vouches for the other one: as the next block by the validators it
      announced, and else by enough of its voters. */
  predicate Tied(env: Env, trusted: Block, untrusted: Block) {
    if Adjacent(trusted, untrusted) then untrusted.validatorsHash == trusted.nextValidatorsHash
    else env.trusting(trusted.voters, trusted.chainID, untrusted.commit) == Enough
  }

  /** Trust has not expired, the header is good, the trusted block vouches for it, and its
      own voters signed it. */
  predicate Accepts(env: Env, trusted: Block, untrusted: Block) {
    && Fresh(env, trusted) && GoodHeader(env, trusted, untrusted)
    && Tied(env, trusted, untrusted) && env.signedByVoters(trusted.chainID, untrusted)
  }

  /** All is well but that too few of the trusted voters signed. */
  predicate LacksTrust(env: Env, trusted: Block, untrusted: Block) {
    && Fresh(env, trusted) && GoodHeader(env, trusted, untrusted) && !Adjacent(trusted, untrusted)
    && env.trusting(trusted.voters, trusted.chainID, untrusted.commit) == NotEnough
  }

  /** Exactly when each verdict is given. */
  predicate Means(env: Env, trusted: Block, untrusted: Block, verdict: Verdict) {
    match verdict
    case Valid => Accepts(env, trusted, untrusted)
    case OldHeaderExpired => !Fresh(env, trusted)
    case InvalidHeader =>
      && Fresh(env, trusted)
      && (!GoodHeader(env, trusted, untrusted)
          || (Tied(env, trusted, untrusted) && !env.signedByVoters(trusted.chainID, untrusted)))
    case CantBeTrusted => LacksTrust(env, trusted, untrusted)
    case OtherError =>
      && Fresh(env, trusted) && GoodHeader(env, trusted, untrusted)
      && (if Adjacent(trusted, untrusted) then untrusted.validatorsHash != trusted.nextValidatorsHash
          else env.trusting(trusted.voters, trusted.chainID, untrusted.commit) == Malformed)
  }

  lemma VerifyMeans(env: Env, trusted: Block, untrusted: Block)
    ensures forall verdict :: Verify(env, trusted, untrusted) == verdict <==> Means(env, trusted, untrusted, verdict)
  {
    assert Means(env, trusted, untrusted, Verify(env, trusted, untrusted));
  }

  lemma VerifyOrders(env: Env, trusted: Block, untrusted: Block)
    ensures Verify(env, trusted, untrusted) == Valid ==>
      untrusted.height > trusted.height && untrusted.time > trusted.time
    ensures Verify(env, trusted, untrusted) == CantBeTrusted ==> untrusted.height >= trusted.height + 2
  {
  }

  // ------------------------------------------------------------------------- traces

  /** Every block is accepted on the word of the one before it. */
  ghost predicate Linked(env: Env, trace: seq<Block>) {
    forall i | 0 < i < |trace| :: Verify(env, trace[i - 1], trace[i]) == Valid
  }

  lemma {:induction false} LinkedGrows(env: Env, trace: seq<Block>, i: nat, j: nat)
    requires Linked(env, trace) && i < j < |trace|
    ensures trace[i].height < trace[j].height && trace[i].time < trace[j].time
    decreases j - i
  {
    assert Verify(env, trace[j - 1], trace[j]) == Valid;
    if i < j - 1 {
      LinkedGrows(env, trace, i, j - 1);
    }
  }

  // ---------------------------------------------------------------------- bisection

  datatype Response = Found(block: Block) | Missing | Canceled | Faulty

  type Provider = int

  /** The answer to the n-th request sent out, by provider and height. A provider that
      answers a request with another height is reported as faulty. */
  type Answers = (nat, Provider, int) -> Response

  ghost predicate AnswersOK(answers: Answers) {
    forall n: nat, p: Provider, h: int :: answers(n, p, h).Found? ==> answers(n, p, h).block.height == h
  }

  datatype SkipResult =
    | Verified(trace: seq<Block>)
    | Untrusted
    | Failed(from: int, height: int, verdict: Verdict)
    | SourceFailed(from: int, height: int)

  const NUMERATOR := 9
  const DENOMINATOR := 16

  function Pivot(low: int, high: int): int {
    low + (high - low) * NUMERATOR / DENOMINATOR
  }

  lemma PivotBetween(low: int, high: int)
    requires low + 2 <= high
    ensures low < Pivot(low, high) < high
  {
  }

  ghost predicate Descending(stack: seq<Block>) {
    forall i, j | 0 <= i < j < |stack| :: stack[i].height > stack[j].height
  }

  /** Bisection with every fetched block kept once: the blocks on the stack are tried from
      the target downward, and when the lowest cannot be trusted a lower one is fetched. */
  ghost function Bisect(env: Env, answers: Answers, source: Provider, sent: nat, verified: Block,
                        stack: seq<Block>, depth: nat, trace: seq<Block>): (SkipResult, nat)
    requires AnswersOK(answers) && Descending(stack) && depth < |stack|
    decreases stack[0].height - verified.height, stack[|stack| - 1].height - verified.height, |stack| - depth
  {
    match Verify(env, verified, stack[depth])
    case Valid =>
      assert stack[depth].height <= stack[0].height;
      if depth == 0 then (Verified(trace + [stack[0]]), sent)
      else Bisect(env, answers, source, sent, stack[depth], stack[..depth], 0, trace + [stack[depth]])
    case CantBeTrusted =>
      if depth < |stack| - 1 then Bisect(env, answers, source, sent, verified, stack, depth + 1, trace)
      else
        PivotBetween(verified.height, stack[depth].height);
        var pivot := Pivot(verified.height, stack[depth].height);
        (match answers(sent, source, pivot)
         case Found(block) => Bisect(env, answers, source, sent + 1, verified, stack + [block], depth + 1, trace)
         case Missing => (Untrusted, sent + 1)
         case _ => (SourceFailed(verified.height, pivot), sent + 1))
    case verdict => (Failed(verified.height, stack[depth].height, verdict), sent)
  }

  /** What bisection verifies is a linked trace from the trusted block to the target. */
  lemma {:induction false} BisectLinks(env: Env, answers: Answers, source: Provider, sent: nat, verified: Block,
                                       stack: seq<Block>, depth: nat, trace: seq<Block>)
    requires AnswersOK(answers) && Descending(stack) && depth < |stack|
    requires Linked(env, trace) && |trace| > 0 && trace[|trace| - 1] == verified
    ensures var (r, _) := Bisect(env, answers, source, sent, verified, stack, depth, trace);
      r.Verified? ==>
        && Linked(env, r.trace) && |trace| < |r.trace| && trace <= r.trace
        && r.trace[|r.trace| - 1] == stack[0]
    ensures var (r, _) := Bisect(env, answers, source, sent, verified, stack, depth, trace);
      r.Failed? ==> verified.height <= r.from && r.verdict !in {Valid, CantBeTrusted}
    decreases stack[0].height - verified.height, stack[|stack| - 1].height - verified.height, |stack| - depth
  {
    hide Verify, Pivot;
    VerifyOrders(env, verified, stack[depth]);
    match Verify(env, verified, stack[depth])
    case Valid =>
      if depth > 0 {
        BisectLinks(env, answers, source, sent, stack[depth], stack[..depth], 0, trace + [stack[depth]]);
      }
    case CantBeTrusted =>
      if depth < |stack| - 1 {
        BisectLinks(env, answers, source, sent, verified, stack, depth + 1, trace);
      } else {
        PivotBetween(verified.height, stack[depth].height);
        var answer := answers(sent, source, Pivot(verified.height, stack[depth].height));
        if answer.Found? {
          BisectLinks(env, answers, source, sent + 1, verified, stack + [answer.block], depth + 1, trace);
        }
      }
    case _ =>
  }

  /** One step of the bisection. */
  lemma BisectStep(env: Env, answers: Answers, source: Provider, sent: nat, verified: Block,
                   stack: seq<Block>, depth: nat, trace: seq<Block>)
    requires AnswersOK(answers) && Descending(stack) && depth < |stack|
    ensures var r := Bisect(env, answers, source, sent, verified, stack, depth, trace);
      match Verify(env, verified, stack[depth])
      case Valid =>
        if depth == 0 then r == (Verified(trace + [stack[0]]), sent)
        else r == Bisect(env, answers, source, sent, stack[depth], stack[..depth], 0, trace + [stack[depth]])
      case CantBeTrusted =>
        if depth < |stack| - 1 then r == Bisect(env, answers, source, sent, verified, stack, depth + 1, trace)
        else
          var pivot := Pivot(verified.height, stack[depth].height);
          var answer := answers(sent, source, pivot);
          && (answer.Missing? ==> r == (Untrusted, sent + 1))
          && (answer.Canceled? || answer.Faulty? ==> r == (SourceFailed(verified.height, pivot), sent + 1))
          && (answer.Found? ==>
                && answer.block.height < stack[depth].height && Descending(stack + [answer.block])
                && r == Bisect(env, answers, source, sent + 1, verified, stack + [answer.block], depth + 1, trace))
      case verdict => r == (Failed(verified.height, stack[depth].height, verdict), sent)
  {
    VerifyOrders(env, verified, stack[depth]);
    if Verify(env, verified, stack[depth]).CantBeTrusted? {
      PivotBetween(verified.height, stack[depth].height);
    }
  }

  // ------------------------------------------------------- bisection, probe by probe

  /** The block that is held at this depth is tried against the last verified one, after so
      many requests. */
  datatype Probe = Probe(verified: Block, held: seq<Block>, depth: nat, sent: nat)

  predicate OnHeld(p: Probe) {
    p.depth < |p.held|
  }

  predicate AtLowest(p: Probe) {
    p.depth + 1 == |p.held|
  }

  /** The height asked for: nine sixteenths of the way up to the lowest block held. */
  function Between(p: Probe): int
    requires OnHeld(p)
  {
    p.verified.height + (p.held[p.depth].height - p.verified.height) * 9 / 16
  }

  /** From one probe to the next: a block that is accepted becomes the verified one, and the
      target is tried again; after one that lacks trust the next lower one is tried, and
      below the lowest one that lacks trust a block is asked for. */
  ghost predicate Moves(env: Env, answers: Answers, source: Provider, p: Probe, q: Probe) {
    && OnHeld(p)
    && var block := p.held[p.depth];
    || (Accepts(env, p.verified, block) && p.depth > 0 && q == Probe(block, p.held[..p.depth], 0, p.sent))
    || (LacksTrust(env, p.verified, block) && !AtLowest(p) && q == p.(depth := p.depth + 1))
    || (LacksTrust(env, p.verified, block) && AtLowest(p) && answers(p.sent, source, Between(p)).Found?
        && q == Probe(p.verified, p.held + [answers(p.sent, source, Between(p)).block], p.depth + 1, p.sent + 1))
  }

  /** The last probe: the target is accepted, a block asked for does not come, or a block is
      neither accepted nor only lacks trust. */
  ghost predicate Ends(env: Env, answers: Answers, source: Provider, p: Probe, r: SkipResult, sent': nat) {
    && OnHeld(p)
    && var block := p.held[p.depth];
    if Accepts(env, p.verified, block) then p.depth == 0 && r.Verified? && sent' == p.sent
    else if LacksTrust(env, p.verified, block) then
      && AtLowest(p) && !answers(p.sent, source, Between(p)).Found? && sent' == p.sent + 1
      && r == if answers(p.sent, source, Between(p)).Missing? then Untrusted
              else SourceFailed(p.verified.height, Between(p))
    else
      && r.Failed? && r.from == p.verified.height && r.height == block.height && sent' == p.sent
      && Means(env, p.verified, block, r.verdict)
  }

  /** A bisection from its first probe to its last. */
  ghost predicate SkipRun(env: Env, answers: Answers, source: Provider, first: Probe, run: seq<Probe>,
                          r: SkipResult, sent': nat) {
    && |run| > 0 && run[0] == first
    && (forall i | 0 <= i < |run| - 1 :: Moves(env, answers, source, run[i], run[i + 1]))
    && Ends(env, answers, source, run[|run| - 1], r, sent')
  }

  /** Bisection is such a run. */
  lemma {:induction false} BisectRun(env: Env, answers: Answers, source: Provider, sent: nat, verified: Block,
                                     stack: seq<Block>, depth: nat, trace: seq<Block>) returns (run: seq<Probe>)
    requires AnswersOK(answers) && Descending(stack) && depth < |stack|
    ensures var (r, sent') := Bisect(env, answers, source, sent, verified, stack, depth, trace);
      SkipRun(env, answers, source, Probe(verified, stack, depth, sent), run, r, sent')
    decreases stack[0].height - verified.height, stack[|stack| - 1].height - verified.height, |stack| - depth
  {
    hide Verify, Accepts, LacksTrust, Bisect, Ends, Moves;
    var p := Probe(verified, stack, depth, sent);
    VerifyOrders(env, verified, stack[depth]);
    BisectStep(env, answers, source, sent, verified, stack, depth, trace);
    var next: seq<Probe> := [];
    match Verify(env, verified, stack[depth]) {
      case Valid =>
        if depth > 0 {
          next := BisectRun(env, answers, source, sent, stack[depth], stack[..depth], 0, trace + [stack[depth]]);
        }
      case CantBeTrusted =>
        if depth < |stack| - 1 {
          next := BisectRun(env, answers, source, sent, verified, stack, depth + 1, trace);
        } else {
          PivotBetween(verified.height, stack[depth].height);
          var answer := answers(sent, source, Pivot(verified.height, stack[depth].height));
          if answer.Found? {
            next := BisectRun(env, answers, source, sent + 1, verified, stack + [answer.block], depth + 1, trace);
          }
        }
      case _ =>
    }
    run := [p] + next;
    var (r, sent') := Bisect(env, answers, source, sent, verified, stack, depth, trace);
    if next == [] {
      ProbeEnds(env, answers, source, p, trace, r, sent');
    } else {
      ProbeMoves(env, answers, source, p, next[0]);
      forall i | 0 <= i < |run| - 1 ensures Moves(env, answers, source, run[i], run[i + 1]) {
        if i > 0 {
          assert run[i] == next[i - 1] && run[i + 1] == next[i];
        }
      }
    }
  }

  /** The probe after this one, by the verdict on this one. */
  lemma ProbeMoves(env: Env, answers: Answers, source: Provider, p: Probe, q: Probe)
    requires OnHeld(p)
    requires var verdict := Verify(env, p.verified, p.held[p.depth]);
      || (verdict.Valid? && p.depth > 0 && q == Probe(p.held[p.depth], p.held[..p.depth], 0, p.sent))
      || (verdict.CantBeTrusted? && !AtLowest(p) && q == p.(depth := p.depth + 1))
      || (verdict.CantBeTrusted? && AtLowest(p)
          && var answer := answers(p.sent, source, Pivot(p.verified.height, p.held[p.depth].height));
          answer.Found? && q == Probe(p.verified, p.held + [answer.block], p.depth + 1, p.sent + 1))
    ensures Moves(env, answers, source, p, q)
  {
    hide Verify, Accepts, LacksTrust;
    VerifyMeans(env, p.verified, p.held[p.depth]);
    assert Means(env, p.verified, p.held[p.depth], Verify(env, p.verified, p.held[p.depth]));
  }

  lemma ProbeEnds(env: Env, answers: Answers, source: Provider, p: Probe, trace: seq<Block>, r: SkipResult, sent': nat)
    requires AnswersOK(answers) && Descending(p.held) && OnHeld(p)
    requires (r, sent') == Bisect(env, answers, source, p.sent, p.verified, p.held, p.depth, trace)
    requires var verdict := Verify(env, p.verified, p.held[p.depth]);
      && (verdict.Valid? ==> p.depth == 0)
      && (verdict.CantBeTrusted? ==>
            AtLowest(p) && !answers(p.sent, source, Pivot(p.verified.height, p.held[p.depth].height)).Found?)
    ensures Ends(env, answers, source, p, r, sent')
  {
    hide Verify, Accepts, LacksTrust, Bisect;
    BisectStep(env, answers, source, p.sent, p.verified, p.held, p.depth, trace);
    VerifyMeans(env, p.verified, p.held[p.depth]);
    assert Means(env, p.verified, p.held[p.depth], Verify(env, p.verified, p.held[p.depth]));
    assert Accepts(env, p.verified, p.held[p.depth]) <==> Means(env, p.verified, p.held[p.depth], Valid);
    assert LacksTrust(env, p.verified, p.held[p.depth]) <==> Means(env, p.verified, p.held[p.depth], CantBeTrusted);
  }

  /** The source serves a chain in which every block accepts every later one, or only lacks
      trust in it. */
  ghost predicate ServesChain(env: Env, answers: Answers, source: Provider, chain: int -> Block, low: int, high: int) {
    && (forall h | low <= h <= high :: chain(h).height == h)
    && (forall n: nat, h | low < h < high :: answers(n, source, h) == Found(chain(h)))
    && (forall a, b | low <= a < b <= high ::
          Accepts(env, chain(a), chain(b)) || LacksTrust(env, chain(a), chain(b)))
  }

  predicate OnChain(chain: int -> Block, b: Block, low: int, high: int) {
    low <= b.height <= high && chain(b.height) == b
  }

  /** Bisection over such a chain reaches the target. */
  lemma {:induction false} BisectReaches(env: Env, answers: Answers, source: Provider, sent: nat, verified: Block,
                                         stack: seq<Block>, depth: nat, trace: seq<Block>,
                                         chain: int -> Block, low: int, high: int)
    requires AnswersOK(answers) && Descending(stack) && depth < |stack|
    requires ServesChain(env, answers, source, chain, low, high) && OnChain(chain, verified, low, high)
    requires forall i | 0 <= i < |stack| :: OnChain(chain, stack[i], low, high) && stack[i].height > verified.height
    ensures Bisect(env, answers, source, sent, verified, stack, depth, trace).0.Verified?
    decreases stack[0].height - verified.height, stack[|stack| - 1].height - verified.height, |stack| - depth
  {
    hide Verify, Accepts, LacksTrust, Bisect, Pivot;
    var block := stack[depth];
    VerifyOrders(env, verified, block);
    BisectStep(env, answers, source, sent, verified, stack, depth, trace);
    VerifyMeans(env, verified, block);
    assert Accepts(env, chain(verified.height), chain(block.height))
      || LacksTrust(env, chain(verified.height), chain(block.height));
    assert Means(env, verified, block, Valid) || Means(env, verified, block, CantBeTrusted);
    match Verify(env, verified, block)
    case Valid =>
      if depth > 0 {
        BisectReaches(env, answers, source, sent, block, stack[..depth], 0, trace + [block], chain, low, high);
      }
    case CantBeTrusted =>
      if depth < |stack| - 1 {
        BisectReaches(env, answers, source, sent, verified, stack, depth + 1, trace, chain, low, high);
      } else {
        PivotBetween(verified.height, block.height);
        var pivot := Pivot(verified.height, block.height);
        assert answers(sent, source, pivot) == Found(chain(pivot));
        BisectReaches(env, answers, source, sent + 1, verified, stack + [chain(pivot)], depth + 1, trace,
                      chain, low, high);
      }
    case _ =>
  }

  /** From the trusted block to the target. */
  ghost predicate ServesUpTo(env: Env, answers: Answers, source: Provider, chain: int -> Block,
                           trusted: Block, target: Block) {
    && trusted.height < target.height && chain(trusted.height) == trusted && chain(target.height) == target
    && ServesChain(env, answers, source, chain, trusted.height, target.height)
  }

  lemma TargetReached(env: Env, answers: Answers, source: Provider, sent: nat, chain: int -> Block,
                      trusted: Block, target: Block)
    requires AnswersOK(answers) && ServesUpTo(env, answers, source, chain, trusted, target)
    ensures Bisect(env, answers, source, sent, trusted, [target], 0, [trusted]).0.Verified?
  {
    BisectReaches(env, answers, source, sent, trusted, [target], 0, [trusted], chain, trusted.height, target.height);
  }

  /** The cache as the client keeps it: the target, then every fetched block twice. */
  ghost function Doubled(stack: seq<Block>): seq<Block>
    requires |stack| > 0
  {
    seq(2 * |stack| - 1, k requires 0 <= k < 2 * |stack| - 1 => stack[(k + 1) / 2])
  }

  lemma DoubledFacts(stack: seq<Block>)
    requires |stack| > 0
    ensures |Doubled(stack)| == 2 * |stack| - 1
    ensures forall k | 0 <= k < |Doubled(stack)| :: Doubled(stack)[k] == stack[(k + 1) / 2]
    ensures forall n | 0 < n < |stack| :: Doubled(stack)[..2 * n - 1] == Doubled(stack[..n])
    ensures forall b :: Doubled(stack + [b]) == Doubled(stack) + [b] + [b]
  {
  }

  /** Bisection as the client runs it refines bisection with every block kept once: the
      second copy is looked at only after the first one could not be trusted, and meets
      the same verdict. */
  method VerifySkipping(env: Env, answers: Answers, source: Provider, sent: nat, trusted: Block, target: Block)
    returns (r: SkipResult, sent': nat)
    requires AnswersOK(answers)
    ensures (r, sent') == Bisect(env, answers, source, sent, trusted, [target], 0, [trusted])
    ensures r.Verified? ==>
      && Linked(env, r.trace) && |r.trace| >= 2 && r.trace[0] == trusted && r.trace[|r.trace| - 1] == target
    ensures exists run :: SkipRun(env, answers, source, Probe(trusted, [target], 0, sent), run, r, sent')
    ensures forall chain: int -> Block | ServesUpTo(env, answers, source, chain, trusted, target) :: r.Verified?
  {
    hide Verify, Pivot, Doubled, Bisect, SkipRun, ServesUpTo;
    ghost var probes := BisectRun(env, answers, source, sent, trusted, [target], 0, [trusted]);
    assert SkipRun(env, answers, source, Probe(trusted, [target], 0, sent), probes,
                   Bisect(env, answers, source, sent, trusted, [target], 0, [trusted]).0,
                   Bisect(env, answers, source, sent, trusted, [target], 0, [trusted]).1);
    forall chain: int -> Block | ServesUpTo(env, answers, source, chain, trusted, target)
      ensures Bisect(env, answers, source, sent, trusted, [target], 0, [trusted]).0.Verified?
    {
      TargetReached(env, answers, source, sent, chain, trusted, target);
    }
    BisectLinks(env, answers, source, sent, trusted, [target], 0, [trusted]);
    DoubledFacts([target]);
    var cache, depth, verified, trace := [target], 0, trusted, [trusted];
    sent' := sent;
    ghost var stack := [target];
    ghost var spec := Bisect(env, answers, source, sent, trusted, [target], 0, [trusted]);
    while true
      invariant |stack| > 0 && stack[0] == target && Descending(stack)
      invariant cache == Doubled(stack) && 0 <= depth < |cache| && (depth + 1) / 2 < |stack|
      invariant depth > 0 && depth % 2 == 0 ==> Verify(env, verified, cache[depth]) == CantBeTrusted
      invariant spec == Bisect(env, answers, source, sent', verified, stack, (depth + 1) / 2, trace)
      decreases target.height - verified.height, cache[|cache| - 1].height - verified.height, |cache| - depth
    {
      DoubledFacts(stack);
      VerifyOrders(env, verified, cache[depth]);
      BisectStep(env, answers, source, sent', verified, stack, (depth + 1) / 2, trace);
      match Verify(env, verified, cache[depth])
      case Valid =>
        if depth == 0 {
          trace := trace + [target];
          return Verified(trace), sent';
        }
        assert stack[(depth + 1) / 2].height <= stack[0].height;
        verified := cache[depth];
        cache := cache[..depth];
        stack := stack[..(depth + 1) / 2];
        depth := 0;
        trace := trace + [verified];
      case CantBeTrusted =>
        if depth == |cache| - 1 {
          var pivot := Pivot(verified.height, cache[depth].height);
          PivotBetween(verified.height, cache[depth].height);
          var answer := answers(sent', source, pivot);
          sent' := sent' + 1;
          if answer.Missing? { return Untrusted, sent'; }
          if !answer.Found? { return SourceFailed(verified.height, pivot), sent'; }
          cache := cache + [answer.block];
          cache := cache + [answer.block];
          stack := stack + [answer.block];
          DoubledFacts(stack);
        }
        depth := depth + 1;
      case verdict =>
        return Failed(verified.height, cache[depth].height, verdict), sent';
    }
  }
}
