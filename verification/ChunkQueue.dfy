/** The queue of snapshot chunks and the loop that feeds them to the application. */
module ChunkQueue {
  import opened Collections

  type Peer = int
  type Body = int

  const NO_PEER: Peer := 0

  datatype Chunk = Chunk(height: int, format: int, index: nat, body: Body, sender: Peer)

  datatype Result = Accept | Abort | Retry | RetrySnapshot | RejectSnapshot | Unknown

  /** The application's answer to a chunk; `Down` when the connection fails. */
  datatype Answer = Answer(result: Result, refetch: seq<nat>, rejectSenders: seq<Peer>) | Down

  // ------------------------------------------------------------------------ the log

  /** What happened to the chunks, oldest first. */
  datatype Event =
    | Allocated(index: nat)
    | Delivered(index: nat, body: Body, result: Result)
    | Retried(index: nat)
    | RetriedAll
    | Discarded(index: nat)

  /** How one event bears on whether chunk `i` is restored. */
  ghost predicate After(e: Event, before: bool, i: nat, body: Body) {
    match e
    case Allocated(_) => before
    case Delivered(k, b, result) => if k == i then b == body && result == Accept else before
    case Retried(k) => k != i && before
    case RetriedAll => false
    case Discarded(k) => k != i && before
  }

  /** The last delivery of chunk `i` was of this body, was accepted, and the chunk has
      since been neither retried nor discarded. */
  ghost predicate Restored(log: seq<Event>, i: nat, body: Body) {
    log != [] && After(log[|log| - 1], Restored(log[..|log| - 1], i, body), i, body)
  }

  /** Chunk `i` has been given out and not been discarded since. */
  ghost predicate Outstanding(log: seq<Event>, i: nat) {
    if log == [] then false
    else
      var last, before := log[|log| - 1], log[..|log| - 1];
      if last == Allocated(i) then true
      else if last == Discarded(i) then false
      else Outstanding(before, i)
  }

  /** No chunk is given out twice without being discarded in between. */
  ghost predicate GivenOutOnce(log: seq<Event>) {
    forall a, b | 0 <= a < b < |log| && log[a].Allocated? && log[b] == log[a] ::
      exists c :: a < c < b && log[c] == Discarded(log[a].index)
  }

  lemma {:induction false} NotOutstanding(log: seq<Event>, i: nat, a: nat)
    requires a < |log| && log[a] == Allocated(i) && !Outstanding(log, i)
    ensures exists c :: a < c < |log| && log[c] == Discarded(i)
  {
    var before := log[..|log| - 1];
    if log[|log| - 1] != Discarded(i) {
      NotOutstanding(before, i, a);
      var c :| a < c < |before| && before[c] == Discarded(i);
      assert log[c] == Discarded(i);
    }
  }

  lemma GivenOutOnceMore(log: seq<Event>, e: Event)
    requires GivenOutOnce(log) && (e.Allocated? ==> !Outstanding(log, e.index))
    ensures GivenOutOnce(log + [e])
  {
    var log' := log + [e];
    forall a, b | 0 <= a < b < |log'| && log'[a].Allocated? && log'[b] == log'[a]
      ensures exists c :: a < c < b && log'[c] == Discarded(log'[a].index)
    {
      if b == |log| {
        NotOutstanding(log, e.index, a);
        var c :| a < c < |log| && log[c] == Discarded(e.index);
        assert log'[c] == Discarded(e.index);
      } else {
        assert log[a].Allocated? && log[b] == log[a];
        var c :| a < c < b && log[c] == Discarded(log[a].index);
        assert log'[c] == Discarded(log'[a].index);
      }
    }
  }

  /** The effect of one more event. */
  lemma LogMore(log: seq<Event>, e: Event, i: nat, body: Body)
    ensures Restored(log + [e], i, body) == After(e, Restored(log, i, body), i, body)
    ensures Outstanding(log + [e], i) == (e == Allocated(i) || (e != Discarded(i) && Outstanding(log, i)))
  {
    assert (log + [e])[..|log|] == log;
  }

  /** Chunk `i` has been discarded after the first `n` events. */
  ghost predicate DiscardedSince(log: seq<Event>, n: int, i: nat) {
    exists c :: 0 <= n <= c < |log| && log[c] == Discarded(i)
  }

  lemma DiscardedStays(log: seq<Event>, log': seq<Event>, n: int, i: nat)
    requires DiscardedSince(log, n, i) && log <= log'
    ensures DiscardedSince(log', n, i)
  {
    var c :| 0 <= n <= c < |log| && log[c] == Discarded(i);
    assert log'[c] == Discarded(i);
  }

  /** What had been discarded still is, and so is what has just been. */
  lemma DiscardNoted(log: seq<Event>, log': seq<Event>, n: int, gone: set<nat>, index: nat)
    requires 0 <= n <= |log| && gone <= {index} && log' == (if gone == {} then log else log + [Discarded(index)])
    ensures forall i | i in gone || DiscardedSince(log, n, i) :: DiscardedSince(log', n, i)
  {
    forall i | i in gone || DiscardedSince(log, n, i) ensures DiscardedSince(log', n, i) {
      if i in gone {
        assert log'[|log|] == Discarded(i);
      } else {
        DiscardedStays(log, log', n, i);
      }
    }
  }

  lemma SinceEarlier(log: seq<Event>, m: int, n: int)
    requires 0 <= n <= m
    ensures forall i | DiscardedSince(log, m, i) :: DiscardedSince(log, n, i)
  {
  }

  // ---------------------------------------------------------------------- the queue

  datatype NextResult = Ready(chunk: Chunk) | Done | Timeout | LoadError | NoChunk

  datatype Outcome = AllApplied | Failed | Aborted | RetryAsked | Rejected | Panicked | OutOfAnswers

  /** What other goroutines do to the queue meanwhile. */
  datatype Other = Arrives(chunk: Chunk) | Fetches | Closes

  /** The application accepts more chunks than are missing, and nobody closes the queue. */
  ghost predicate Easy(answers: seq<Answer>, others: (nat, nat) -> seq<Other>, missing: int) {
    && |answers| > missing && (forall a | a in answers :: a == Answer(Accept, [], []))
    && forall n: nat, k: nat :: Closes !in others(n, k)
  }

  class ChunkQueue {
    const height: int
    const format: int
    const chunks: nat
    var open: bool
    var files: map<nat, Body>
    var senders: map<nat, Peer>
    var givenOut: set<nat>
    var returned: set<nat>
    ghost var log: seq<Event>

    ghost predicate Valid() reads this {
      && (forall i | i in files :: i < chunks)
      && (forall i | i in givenOut :: i < chunks)
      && (forall i | i in returned :: i < chunks)
      && (forall i :: i in givenOut <==> Outstanding(log, i))
      && GivenOutOnce(log)
    }

    /** Every chunk returned, but for the one in hand, is restored. */
    ghost predicate InStep(inHand: set<nat>) reads this {
      forall i | i in returned && i !in inHand :: i in files && Restored(log, i, files[i])
    }

    constructor(height: int, format: int, chunks: nat)
      requires chunks > 0
      ensures Valid() && InStep({}) && open && returned == {} && log == []
      ensures this.height == height && this.format == format && this.chunks == chunks
    {
      this.height, this.format, this.chunks := height, format, chunks;
      open, files, senders, givenOut, returned, log := true, map[], map[], {}, {}, [];
    }

    ghost method Note(e: Event)
      requires GivenOutOnce(log) && (e.Allocated? ==> !Outstanding(log, e.index))
      modifies `log
      ensures log == old(log) + [e] && GivenOutOnce(log)
      ensures forall i, b :: Restored(log, i, b) == After(e, Restored(old(log), i, b), i, b)
      ensures forall i :: Outstanding(log, i) == (e == Allocated(i) || (e != Discarded(i) && Outstanding(old(log), i)))
    {
      GivenOutOnceMore(log, e);
      forall i: nat, b: Body { LogMore(log, e, i, b); }
      log := log + [e];
    }

    method Add(chunk: Chunk) returns (added: bool)
      requires Valid()
      modifies `files, `senders
      ensures Valid()
      ensures added == (old(open) && chunk.height == height && chunk.format == format && chunk.index < chunks
        && chunk.index !in old(files))
      ensures files == if added then old(files)[chunk.index := chunk.body] else old(files)
      ensures senders == if added then old(senders)[chunk.index := chunk.sender] else old(senders)
      ensures forall inHand | old(InStep(inHand)) :: InStep(inHand)
    {
      if !open || chunk.height != height || chunk.format != format || chunk.index >= chunks || chunk.index in files {
        return false;
      }
      files := files[chunk.index := chunk.body];
      senders := senders[chunk.index := chunk.sender];
      added := true;
    }

    /** Gives out the least chunk that is not given out yet. */
    method Allocate() returns (r: Option<nat>)
      requires Valid()
      modifies `givenOut, `log
      ensures Valid()
      ensures r.None? <==> !open || forall i | 0 <= i < chunks :: i in old(givenOut)
      ensures r.None? ==> givenOut == old(givenOut) && log == old(log)
      ensures r.Some? ==>
        r.value < chunks && r.value !in old(givenOut) && (forall i | 0 <= i < r.value :: i in old(givenOut))
      ensures r.Some? ==> givenOut == old(givenOut) + {r.value} && log == old(log) + [Allocated(r.value)]
      ensures forall inHand | old(InStep(inHand)) :: InStep(inHand)
    {
      if !open { return None; }
      AllocatedSize(givenOut, chunks);
      if |givenOut| >= chunks { return None; }
      for i := 0 to chunks
        invariant forall k | 0 <= k < i :: k in givenOut
        invariant log == old(log) && givenOut == old(givenOut)
      {
        if i !in givenOut {
          givenOut := givenOut + {i};
          Note(Allocated(i));
          return Some(i);
        }
      }
      return None;
    }

    method Close()
      requires Valid()
      modifies `open
      ensures Valid() && !open
    {
      open := false;
    }

    /** Does nothing unless the chunk has arrived. */
    method Discard(index: nat)
      requires Valid()
      modifies `files, `givenOut, `returned, `log
      ensures Valid()
      ensures if old(open) && index in old(files)
        then && files == old(files) - {index} && givenOut == old(givenOut) - {index}
             && returned == old(returned) - {index} && log == old(log) + [Discarded(index)]
        else files == old(files) && givenOut == old(givenOut) && returned == old(returned) && log == old(log)
      ensures forall inHand | old(InStep(inHand)) :: InStep(inHand)
    {
      if !open || index !in files { return; }
      files := files - {index};
      returned := returned - {index};
      givenOut := givenOut - {index};
      Note(Discarded(index));
    }

    /** Discards the chunk and forgets who sent it. */
    method DiscardSent(index: nat)
      requires Valid() && index !in returned
      modifies `files, `senders, `givenOut, `returned, `log
      ensures Valid() && returned == old(returned) && senders == old(senders) - {index}
      ensures files == if open then old(files) - {index} else old(files)
      ensures log == if files == old(files) then old(log) else old(log) + [Discarded(index)]
      ensures forall inHand | old(InStep(inHand)) :: InStep(inHand)
    {
      Discard(index);
      senders := senders - {index};
    }

    /** Discards what the peer sent and has not been returned yet. */
    method DiscardSender(peer: Peer)
      requires Valid()
      modifies `files, `senders, `givenOut, `returned, `log
      ensures Valid() && returned == old(returned)
      ensures forall i | i in old(files) && i in old(senders) ::
        i in files <==> !(open && old(senders)[i] == peer && i !in returned)
      ensures forall i | i in files :: i in old(files) && files[i] == old(files)[i]
      ensures forall inHand | old(InStep(inHand)) :: InStep(inHand)
      ensures old(log) <= log && forall c | |old(log)| <= c < |log| :: log[c].Discarded?
      ensures forall i | i in old(files) && i !in files :: DiscardedSince(log, |old(log)|, i)
      ensures forall i | i in senders :: i in old(senders) && senders[i] == old(senders)[i]
      ensures forall i | i in old(senders) :: i in senders <==> old(senders)[i] != peer || i in returned
    {
      hide Valid, InStep, DiscardedSince;
      var todo := senders.Keys;
      while todo != {}
        invariant Valid() && returned == old(returned) && todo <= old(senders).Keys
        invariant forall i | i in old(senders) ::
          i in senders <==> i in todo || old(senders)[i] != peer || i in returned
        invariant forall i | i in old(files) && i in old(senders) ::
          i in files <==> i in todo || !(open && old(senders)[i] == peer && i !in returned)
        invariant forall i | i in files :: i in old(files) && files[i] == old(files)[i]
        invariant forall inHand | old(InStep(inHand)) :: InStep(inHand)
        invariant old(log) <= log && forall c | |old(log)| <= c < |log| :: log[c].Discarded?
        invariant forall i | i in old(files) && i !in files :: DiscardedSince(log, |old(log)|, i)
        invariant forall i | i in senders :: i in old(senders) && senders[i] == old(senders)[i]
        decreases |todo|
      {
        var index := Pick(todo);
        if senders[index] == peer && index !in returned {
          ghost var before, held := log, files;
          DiscardSent(index);
          DiscardNoted(before, log, |old(log)|, held.Keys - files.Keys, index);
        }
        todo := todo - {index};
      }
    }

    method Retry(index: nat)
      requires Valid()
      modifies `returned, `log
      ensures Valid() && returned == old(returned) - {index} && log == old(log) + [Retried(index)]
      ensures forall inHand | old(InStep(inHand)) :: InStep(inHand)
    {
      returned := returned - {index};
      Note(Retried(index));
    }

    method RetryAll()
      requires Valid()
      modifies `returned, `log
      ensures Valid() && returned == {} && log == old(log) + [RetriedAll] && InStep({})
    {
      returned := {};
      Note(RetriedAll);
    }

    function SenderOf(index: nat): Peer reads this {
      if index in senders then senders[index] else NO_PEER
    }

    /** Other goroutines at work: chunks arrive, fetchers ask for allocations. */
    method Others(steps: seq<Other>)
      requires Valid()
      modifies `open, `files, `senders, `givenOut, `log
      ensures Valid() && (open ==> old(open)) && (old(open) && Closes !in steps ==> open)
      ensures forall i | i in old(files) :: i in files && files[i] == old(files)[i]
      ensures forall i | i in old(files) && i in old(senders) :: i in senders && senders[i] == old(senders)[i]
      ensures old(log) <= log && forall c | |old(log)| <= c < |log| :: log[c].Allocated?
      ensures forall inHand | old(InStep(inHand)) :: InStep(inHand)
    {
      for k := 0 to |steps|
        invariant Valid() && (open ==> old(open)) && (old(open) && Closes !in steps ==> open)
        invariant forall i | i in old(files) :: i in files && files[i] == old(files)[i]
        invariant forall i | i in old(files) && i in old(senders) :: i in senders && senders[i] == old(senders)[i]
        invariant old(log) <= log && forall c | |old(log)| <= c < |log| :: log[c].Allocated?
        invariant forall inHand | old(InStep(inHand)) :: InStep(inHand)
      {
        match steps[k]
        case Arrives(chunk) => var added := Add(chunk);
        case Fetches => var index := Allocate();
        case Closes => Close();
      }
    }

    ghost predicate AllHere() reads this {
      forall i | 0 <= i < chunks :: i in files
    }

    /** The least chunk not returned yet. It is marked as returned before it has arrived. */
    method Next(waiting: seq<Other>, waking: seq<Other>) returns (r: NextResult)
      requires Valid() && InStep({})
      modifies `open, `files, `senders, `givenOut, `returned, `log
      ensures Valid() && (open ==> old(open))
      ensures r.Ready? ==>
        && r.chunk.index !in old(returned) && r.chunk.index < chunks && returned == old(returned) + {r.chunk.index}
        && (forall i | 0 <= i < r.chunk.index :: i in old(returned))
        && r.chunk.index in files && files[r.chunk.index] == r.chunk.body && InStep({r.chunk.index})
      ensures r.Done? && open ==> InStep({}) && forall i | 0 <= i < chunks :: i in returned
      ensures !r.NoChunk?
      ensures old(open && AllHere()) ==> (r.Ready? || r.Done?) && open && files == old(files)
    {
      if !open { return Done; }
      var index := 0;
      while index < chunks && index in returned
        invariant index <= chunks && forall i | 0 <= i < index :: i in returned
      {
        index := index + 1;
      }
      if index == chunks { return Done; }
      returned := returned + {index};
      if index in files {
        return Ready(Chunk(height, format, index, files[index], SenderOf(index)));
      }
      Others(waiting);
      if !open { return Done; }
      if index !in files { return Timeout; }
      Others(waking);
      if !open { return LoadError; }
      if index !in files { return NoChunk; }
      returned := returned + {index};
      return Ready(Chunk(height, format, index, files[index], SenderOf(index)));
    }

    /** Every chunk is here and its last delivery was accepted. */
    ghost predicate Complete() reads this {
      forall i | 0 <= i < chunks :: i in files && Restored(log, i, files[i])
    }

    /** Feeds chunks to the application until all are applied. That is reached when all
        chunks are here, nobody closes the queue and the application accepts them all. */
    method ApplyChunks(answers: seq<Answer>, others: (nat, nat) -> seq<Other>) returns (outcome: Outcome)
      requires Valid() && InStep({})
      modifies this
      ensures old(open && AllHere() && Easy(answers, others, chunks - |returned|)) ==> outcome.AllApplied?
      ensures Valid() && (open ==> old(open))
      ensures outcome.AllApplied? && open ==> Complete()
      ensures !outcome.Panicked?
    {
      hide Easy;
      ghost var easy := open && AllHere() && Easy(answers, others, chunks - |returned|);
      for n := 0 to |answers|
        invariant Valid() && InStep({}) && (open ==> old(open))
        invariant easy ==> open && AllHere() && |returned| == |old(returned)| + n
      {
        if easy {
          EasyFacts(answers, others, chunks - |old(returned)|, n);
        }
        var o := ApplyNext(answers[n], (k: nat) => others(n, k));
        if o.Some? { return o.value; }
      }
      AllocatedSize(returned, chunks);
      if easy {
        EasyEnough(answers, others, chunks - |old(returned)|);
      }
      return OutOfAnswers;
    }

    /** One turn of the loop; others act before every locked section of it. */
    method ApplyNext(answer: Answer, others: nat -> seq<Other>) returns (o: Option<Outcome>)
      requires Valid() && InStep({})
      modifies this
      ensures Valid() && (open ==> old(open)) && o != Some(Panicked) && (o.None? ==> InStep({}))
      ensures o == Some(AllApplied) && open ==> Complete()
      ensures old(open && AllHere()) && answer == Answer(Accept, [], []) && Closes !in others(2) ==>
        open && AllHere() && (o == Some(AllApplied) || (o.None? && |returned| == |old(returned)| + 1))
    {
      hide GivenOutOnce, Outstanding, Restored;
      var next := Next(others(0), others(1));
      if next.Done? { return Some(AllApplied); }
      if next.NoChunk? { return Some(Panicked); }
      if !next.Ready? { return Some(Failed); }
      Others(others(2));
      if answer.Down? { return Some(Failed); }
      Deliver(next.chunk, answer, others);
      match answer.result
      case Accept => return None;
      case Abort => return Some(Aborted);
      case Retry =>
        Others(others(3));
        Retry(next.chunk.index);
        return None;
      case RetrySnapshot => return Some(RetryAsked);
      case RejectSnapshot => return Some(Rejected);
      case Unknown => return Some(Failed);
    }

    /** The application wants this chunk again, or rejects the peer that sent it. */
    ghost predicate Unwanted(answer: Answer, i: nat)
      requires answer.Answer?
      reads `senders, `returned
    {
      || i in answer.refetch
      || (i in senders && senders[i] != NO_PEER && senders[i] in answer.rejectSenders && i !in returned)
    }

    /** One chunk handed to the application, and what it asks for in return: after the
        delivery, chunks here that it wants again, and chunks not returned yet of peers it
        rejects, are discarded, unless somebody closes the queue. */
    method Deliver(chunk: Chunk, answer: Answer, others: nat -> seq<Other>)
      requires Valid() && answer.Answer? && InStep({chunk.index})
      requires chunk.index in files && files[chunk.index] == chunk.body
      modifies `open, `files, `senders, `givenOut, `returned, `log
      ensures Valid() && InStep({chunk.index}) && (open ==> old(open))
      ensures answer.result == Accept ==> InStep({})
      ensures answer.refetch == [] && answer.rejectSenders == [] ==>
        open == old(open) && files == old(files) && returned == old(returned)
      ensures old(log) + [Delivered(chunk.index, chunk.body, answer.result)] <= log
      ensures open ==> forall i | i in old(files) && old(Unwanted(answer, i)) :: DiscardedSince(log, |old(log)| + 1, i)
      ensures forall c | |old(log)| < c < |log| :: log[c].Discarded? || log[c].Allocated?
    {
      hide GivenOutOnce, Outstanding, Restored;
      Note(Delivered(chunk.index, chunk.body, answer.result));
      assert InStep({chunk.index}) && (answer.result == Accept ==> InStep({}));
      ApplyAnswer(answer, others);
    }

    /** Since the first `n` events chunk `i` has been discarded, or it is still as it was. */
    ghost predicate KeptOrDiscarded(was: map<nat, Body>, from: map<nat, Peer>, n: int, i: nat)
      requires i in was
      reads `files, `senders, `log
    {
      || DiscardedSince(log, n, i)
      || (i in files && files[i] == was[i] && (i in from ==> i in senders && senders[i] == from[i]))
    }

    method Refetch(indexes: seq<nat>, others: nat -> seq<Other>)
      requires Valid()
      modifies `open, `files, `senders, `givenOut, `returned, `log
      ensures Valid() && (open ==> old(open)) && returned <= old(returned)
      ensures forall inHand | old(InStep(inHand)) :: InStep(inHand)
      ensures indexes == [] ==> open == old(open) && files == old(files) && returned == old(returned)
      ensures old(log) <= log && forall c | |old(log)| <= c < |log| :: log[c].Discarded? || log[c].Allocated?
      ensures forall i | i in old(files) :: KeptOrDiscarded(old(files), old(senders), |old(log)|, i)
      ensures open ==> forall i | i in old(files) && i in indexes :: DiscardedSince(log, |old(log)|, i)
    {
      hide GivenOutOnce, Outstanding, Restored;
      for k := 0 to |indexes|
        invariant Valid() && (open ==> old(open)) && returned <= old(returned)
        invariant forall inHand | old(InStep(inHand)) :: InStep(inHand)
        invariant k == 0 ==> open == old(open) && files == old(files) && returned == old(returned)
        invariant old(log) <= log && forall c | |old(log)| <= c < |log| :: log[c].Discarded? || log[c].Allocated?
        invariant forall i | i in old(files) :: KeptOrDiscarded(old(files), old(senders), |old(log)|, i)
        invariant open ==>
          forall j | 0 <= j < k && indexes[j] in old(files) :: DiscardedSince(log, |old(log)|, indexes[j])
      {
        ghost var before := log;
        Others(others(4 + k));
        Discard(indexes[k]);
        StillDiscarded(before, old(files), old(senders), |old(log)|);
        if open && indexes[k] in old(files) && !DiscardedSince(before, |old(log)|, indexes[k]) {
          assert log[|log| - 1] == Discarded(indexes[k]);
        }
      }
    }

    lemma StillDiscarded(before: seq<Event>, was: map<nat, Body>, from: map<nat, Peer>, n: int)
      requires before <= log
      ensures forall i | DiscardedSince(before, n, i) :: DiscardedSince(log, n, i)
    {
      forall i | DiscardedSince(before, n, i) ensures DiscardedSince(log, n, i) {
        DiscardedStays(before, log, n, i);
      }
    }

    method RejectSender(peer: Peer, steps: seq<Other>, ghost was: map<nat, Body>, ghost from: map<nat, Peer>,
                        ghost gone: set<nat>, ghost n: int)
      requires Valid() && returned <= gone && 0 <= n <= |log|
      requires open ==> forall i | i in was :: KeptOrDiscarded(was, from, n, i)
      modifies `open, `files, `senders, `givenOut, `returned, `log
      ensures Valid() && (open ==> old(open)) && returned == old(returned)
      ensures forall inHand | old(InStep(inHand)) :: InStep(inHand)
      ensures old(log) <= log && forall c | |old(log)| <= c < |log| :: log[c].Discarded? || log[c].Allocated?
      ensures open ==> forall i | i in was :: KeptOrDiscarded(was, from, n, i)
      ensures open && peer != NO_PEER ==>
        forall i | i in was && i in from && from[i] == peer && i !in gone :: DiscardedSince(log, n, i)
    {
      hide GivenOutOnce, Outstanding, Restored;
      ghost var before := log;
      Others(steps);
      ghost var between := log;
      StillDiscarded(before, was, from, n);
      if peer != NO_PEER {
        DiscardSender(peer);
        StillDiscarded(between, was, from, n);
        SinceEarlier(log, |between|, n);
      }
    }

    method ApplyAnswer(answer: Answer, others: nat -> seq<Other>)
      requires Valid() && answer.Answer?
      modifies `open, `files, `senders, `givenOut, `returned, `log
      ensures Valid() && (open ==> old(open))
      ensures forall inHand | old(InStep(inHand)) :: InStep(inHand)
      ensures answer.refetch == [] && answer.rejectSenders == [] ==>
        open == old(open) && files == old(files) && returned == old(returned)
      ensures old(log) <= log && forall c | |old(log)| <= c < |log| :: log[c].Discarded? || log[c].Allocated?
      ensures open ==> forall i | i in old(files) && old(Unwanted(answer, i)) :: DiscardedSince(log, |old(log)|, i)
    {
      Refetch(answer.refetch, others);
      label Refetched:
      for k := 0 to |answer.rejectSenders|
        invariant Valid() && (open ==> old(open)) && forall inHand | old(InStep(inHand)) :: InStep(inHand)
        invariant k == 0 && answer.refetch == [] ==>
          open == old(open) && files == old(files) && returned == old(returned)
        invariant old@Refetched(log) <= log && returned == old@Refetched(returned)
        invariant forall c | |old(log)| <= c < |log| :: log[c].Discarded? || log[c].Allocated?
        invariant open ==> old@Refetched(open)
        invariant open ==> forall i | i in old(files) :: KeptOrDiscarded(old(files), old(senders), |old(log)|, i)
        invariant open ==> forall i, j | i in old(files) && i !in old(returned) && 0 <= j < k && i in old(senders)
                                         && NO_PEER != old(senders)[i] == answer.rejectSenders[j] ::
          DiscardedSince(log, |old(log)|, i)
      {
        RejectSender(answer.rejectSenders[k], others(4 + |answer.refetch| + k), old(files), old(senders), old(returned),
                     |old(log)|);
      }
      if open {
        forall i | i in old(files) && old(Unwanted(answer, i)) ensures DiscardedSince(log, |old(log)|, i) {
          if i in answer.refetch {
            DiscardedStays(old@Refetched(log), log, |old(log)|, i);
          }
        }
      }
    }

    /** Restoring a snapshot as often as the application asks for: when it succeeds on an
        open queue, the application accepted every chunk and took none back. */
    method Restore(attempts: seq<seq<Answer>>, others: (nat, nat, nat) -> seq<Other>)
      returns (outcome: Outcome)
      requires Valid() && InStep({})
      modifies this
      ensures Valid() && !outcome.Panicked?
      ensures outcome.AllApplied? && open ==> Complete()
    {
      for n := 0 to |attempts|
        invariant Valid() && InStep({})
      {
        outcome := ApplyChunks(attempts[n], (m: nat, k: nat) => others(n, m, k));
        if !outcome.RetryAsked? { return; }
        Others(others(n, |attempts[n]|, 0));
        RetryAll();
      }
      outcome := OutOfAnswers;
    }
  }

  lemma EasyFacts(answers: seq<Answer>, others: (nat, nat) -> seq<Other>, missing: int, n: nat)
    requires Easy(answers, others, missing) && n < |answers|
    ensures answers[n] == Answer(Accept, [], []) && Closes !in others(n, 2)
  {
    assert answers[n] in answers;
  }

  lemma EasyEnough(answers: seq<Answer>, others: (nat, nat) -> seq<Other>, missing: int)
    requires Easy(answers, others, missing)
    ensures |answers| > missing
  {
  }

  lemma AllocatedSize(s: set<nat>, n: nat)
    requires forall i | i in s :: i < n
    ensures |s| <= n && (|s| >= n <==> forall i | 0 <= i < n :: i in s)
  {
    var all := Below(n);
    assert s <= all;
    assert s + (all - s) == all && |s| + |all - s| == n;
    if |s| >= n {
      assert all - s == {};
      assert forall i | 0 <= i < n :: i in all && i !in all - s;
    }
    if forall i | 0 <= i < n :: i in s {
      assert all == s;
    }
  }
}
