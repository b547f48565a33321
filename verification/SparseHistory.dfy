/** The sparse history of validator sets and consensus parameters: a set is stored only
    where it changed and every 100000 heights; other heights point back to one. */
module SparseHistory {
  import opened Collections

  const CHECKPOINT_INTERVAL := 100000

  /** Addresses and powers, and the proposer priorities that rotate with every height. */
  datatype Validators = Validators(members: map<int, int>, priorities: int)

  datatype ValidatorsInfo = ValidatorsInfo(lastHeightChanged: int, stored: Option<Validators>)

  /** Consensus parameters; `None` is the empty value, which refers to another height. */
  type Params = Option<int>

  datatype ParamsInfo = ParamsInfo(lastHeightChanged: int, params: Params)

  type ValMap = map<int, ValidatorsInfo>
  type ParamMap = map<int, ParamsInfo>

  datatype Load<+T> = NotFound | Panic | Loaded(value: T)

  function Checkpoint(height: int): int {
    height - height % CHECKPOINT_INTERVAL
  }

  function LastStoredHeightFor(height: int, lastHeightChanged: int): int {
    if Checkpoint(height) > lastHeightChanged then Checkpoint(height) else lastHeightChanged
  }

  /** IncrementProposerPriority: rotates priorities, keeps the members. */
  function Increment(v: Validators, times: int): Validators
    requires times > 0
  {
    v.(priorities := v.priorities + times)
  }

  function LoadValidators(vals: ValMap, height: int): Load<Validators> {
    if height == 0 || height !in vals then NotFound
    else if vals[height].stored.Some? then Loaded(vals[height].stored.value)
    else
      var t := LastStoredHeightFor(height, vals[height].lastHeightChanged);
      if t !in vals || vals[t].stored.None? then NotFound
      else if height - t <= 0 then Panic
      else Loaded(Increment(vals[t].stored.value, height - t))
  }

  function LoadParams(params: ParamMap, height: int): Load<Params> {
    if height !in params then NotFound
    else if params[height].params.Some? then Loaded(params[height].params)
    else
      var t := params[height].lastHeightChanged;
      if t !in params then NotFound else Loaded(params[t].params)
  }

  function SaveValidatorsInfo(vals: ValMap, height: int, lastHeightChanged: int, v: Validators): ValMap {
    vals[height := ValidatorsInfo(lastHeightChanged,
      if height == lastHeightChanged || height % CHECKPOINT_INTERVAL == 0 then Some(v) else None)]
  }

  function SaveParamsInfo(params: ParamMap, height: int, changeHeight: int, p: Params): ParamMap {
    params[height := ParamsInfo(changeHeight, if changeHeight == height then p else None)]
  }

  // -------------------------------------------------------------- the index invariant

  /** Heights lo..hi are indexed: each entry holds its set, or points back to the last
      height where the set changed. */
  ghost predicate ValsIndexed(vals: ValMap, dense: map<int, map<int, int>>, lo: int, hi: int) {
    && 1 <= lo
    && (forall h | lo <= h <= hi :: h in vals && h in dense)
    && (forall h | lo <= h <= hi :: ValEntryOK(vals, dense, h))
    && (forall a, b | lo <= a <= b <= hi && vals[b].lastHeightChanged <= a ::
          vals[a].lastHeightChanged == vals[b].lastHeightChanged && dense[a] == dense[b])
  }

  ghost predicate ValEntryOK(vals: ValMap, dense: map<int, map<int, int>>, h: int)
    requires h in vals && h in dense
  {
    var info := vals[h];
    var t := LastStoredHeightFor(h, info.lastHeightChanged);
    && 1 <= info.lastHeightChanged <= h
    && (info.stored.Some? <==> info.lastHeightChanged == h || h % CHECKPOINT_INTERVAL == 0)
    && (info.stored.Some? ==> info.stored.value.members == dense[h])
    && (info.stored.None? ==> t in vals && vals[t].stored.Some? && vals[t].stored.value.members == dense[h])
  }

  ghost predicate ParamsIndexed(params: ParamMap, dense: map<int, Params>, lo: int, hi: int) {
    && (forall h | lo <= h <= hi :: h in params && h in dense)
    && (forall h | lo <= h <= hi :: ParamEntryOK(params, dense, h))
    && (forall a, b | lo <= a <= b <= hi && params[b].lastHeightChanged <= a ::
          params[a].lastHeightChanged == params[b].lastHeightChanged)
  }

  ghost predicate ParamEntryOK(params: ParamMap, dense: map<int, Params>, h: int)
    requires h in params && h in dense
  {
    var info := params[h];
    && info.lastHeightChanged <= h && dense[h].Some?
    && (info.params.Some? <==> info.lastHeightChanged == h)
    && (info.params.Some? ==> info.params == dense[h])
    && (info.params.None? ==>
          info.lastHeightChanged in params && params[info.lastHeightChanged].params == dense[h])
  }

  /** Sparse equals dense: every indexed height loads the members in force at it, and a
      set is never rotated by less than 1 or more than 99999 heights. */
  lemma SparseEqualsDense(vals: ValMap, dense: map<int, map<int, int>>, lo: int, hi: int, h: int)
    requires ValsIndexed(vals, dense, lo, hi) && lo <= h <= hi
    ensures LoadValidators(vals, h).Loaded? && LoadValidators(vals, h).value.members == dense[h]
    ensures vals[h].stored.None? ==>
      1 <= h - LastStoredHeightFor(h, vals[h].lastHeightChanged) <= CHECKPOINT_INTERVAL - 1
  {
    assert ValEntryOK(vals, dense, h);
  }

  lemma ParamsEqualDense(params: ParamMap, dense: map<int, Params>, lo: int, hi: int, h: int)
    requires ParamsIndexed(params, dense, lo, hi) && lo <= h <= hi
    ensures LoadParams(params, h) == Loaded(dense[h])
  {
    assert ParamEntryOK(params, dense, h);
  }

  // ------------------------------------------------------------------------ growing

  lemma SameCheckpoint(a: int, b: int)
    requires a <= b && Checkpoint(b) < a
    ensures Checkpoint(a) == Checkpoint(b) && a % CHECKPOINT_INTERVAL != 0
  {
    var k := b / CHECKPOINT_INTERVAL;
    assert k * CHECKPOINT_INTERVAL < a < (k + 1) * CHECKPOINT_INTERVAL;
  }

  /** A set first stored at `h` starts an index. */
  lemma FirstVals(vals: ValMap, h: int, v: Validators)
    requires h >= 1
    ensures ValsIndexed(SaveValidatorsInfo(vals, h, h, v), map[h := v.members], h, h)
  {
  }

  /** The next height, with the set unchanged since `lc` or changed just now. */
  lemma ExtendVals(vals: ValMap, dense: map<int, map<int, int>>, lo: int, hi: int, lc: int, v: Validators)
    requires ValsIndexed(vals, dense, lo, hi) && lo <= hi
    requires lc == hi + 1 || (lc == vals[hi].lastHeightChanged && v.members == dense[hi])
    ensures ValsIndexed(SaveValidatorsInfo(vals, hi + 1, lc, v), dense[hi + 1 := v.members], lo, hi + 1)
  {
    hide ValEntryOK;
    var vals' := SaveValidatorsInfo(vals, hi + 1, lc, v);
    var dense' := dense[hi + 1 := v.members];
    forall h | lo <= h <= hi + 1 ensures ValEntryOK(vals', dense', h) {
      if h <= hi {
        KeptEntry(vals, dense, lo, hi, h, vals'[hi + 1], v.members);
      } else {
        NewEntry(vals, dense, lo, hi, lc, v);
      }
    }
    LastChangesChain(vals, dense, lo, hi, lc, v);
  }

  lemma LastChangesChain(vals: ValMap, dense: map<int, map<int, int>>, lo: int, hi: int, lc: int, v: Validators)
    requires ValsIndexed(vals, dense, lo, hi) && lo <= hi
    requires lc == hi + 1 || (lc == vals[hi].lastHeightChanged && v.members == dense[hi])
    ensures var vals' := SaveValidatorsInfo(vals, hi + 1, lc, v);
      var dense' := dense[hi + 1 := v.members];
      forall a, b | lo <= a <= b <= hi + 1 && vals'[b].lastHeightChanged <= a ::
        vals'[a].lastHeightChanged == vals'[b].lastHeightChanged && dense'[a] == dense'[b]
  {
    hide LastStoredHeightFor;
    assert ValEntryOK(vals, dense, hi);
  }

  lemma KeptEntry(vals: ValMap, dense: map<int, map<int, int>>, lo: int, hi: int, h: int,
                  info: ValidatorsInfo, members: map<int, int>)
    requires ValsIndexed(vals, dense, lo, hi) && lo <= h <= hi
    ensures ValEntryOK(vals[hi + 1 := info], dense[hi + 1 := members], h)
  {
    assert ValEntryOK(vals, dense, h);
  }

  lemma NewEntry(vals: ValMap, dense: map<int, map<int, int>>, lo: int, hi: int, lc: int, v: Validators)
    requires ValsIndexed(vals, dense, lo, hi) && lo <= hi
    requires lc == hi + 1 || (lc == vals[hi].lastHeightChanged && v.members == dense[hi])
    ensures ValEntryOK(SaveValidatorsInfo(vals, hi + 1, lc, v), dense[hi + 1 := v.members], hi + 1)
  {
    assert ValEntryOK(vals, dense, hi);
    if lc <= hi && (hi + 1) % CHECKPOINT_INTERVAL != 0 {
      NextCheckpoint(hi);
      assert LastStoredHeightFor(hi + 1, lc) == LastStoredHeightFor(hi, lc);
    }
  }

  lemma NextCheckpoint(h: int)
    requires (h + 1) % CHECKPOINT_INTERVAL != 0
    ensures Checkpoint(h + 1) == Checkpoint(h)
  {
    var k := (h + 1) / CHECKPOINT_INTERVAL;
    assert k * CHECKPOINT_INTERVAL <= h < (k + 1) * CHECKPOINT_INTERVAL;
  }

  lemma FirstParams(params: ParamMap, h: int, p: Params)
    requires p.Some?
    ensures ParamsIndexed(SaveParamsInfo(params, h, h, p), map[h := p], h, h)
  {
  }

  lemma ExtendParams(params: ParamMap, dense: map<int, Params>, lo: int, hi: int, lc: int, p: Params)
    requires ParamsIndexed(params, dense, lo, hi) && lo <= hi && p.Some?
    requires lc == hi + 1 || (lc == params[hi].lastHeightChanged && p == dense[hi])
    ensures ParamsIndexed(SaveParamsInfo(params, hi + 1, lc, p), dense[hi + 1 := p], lo, hi + 1)
  {
    var params' := SaveParamsInfo(params, hi + 1, lc, p);
    var dense' := dense[hi + 1 := p];
    assert ParamEntryOK(params, dense, hi);
    forall h | lo <= h <= hi + 1 ensures ParamEntryOK(params', dense', h) {
      if h <= hi {
        assert ParamEntryOK(params, dense, h);
      }
    }
  }

  // ----------------------------------------------------------------------- rotation

  /** The priorities a height loads. */
  function PrioritiesAt(vals: ValMap, h: int): int
    requires LoadValidators(vals, h).Loaded?
  {
    LoadValidators(vals, h).value.priorities
  }

  /** From each height to the next the priorities move on by one, unless the set changes. */
  ghost predicate Rotates(vals: ValMap, lo: int, hi: int) {
    forall h | lo <= h < hi :: RotatesAt(vals, h)
  }

  ghost predicate RotatesAt(vals: ValMap, h: int) {
    && LoadValidators(vals, h).Loaded? && LoadValidators(vals, h + 1).Loaded? && h + 1 in vals
    && (vals[h + 1].lastHeightChanged <= h ==> PrioritiesAt(vals, h + 1) == PrioritiesAt(vals, h) + 1)
  }

  /** Saving the next height keeps it so, whether its set is stored or not, if a set that has
      not changed comes with the next priorities; and these are what it loads. */
  lemma ExtendRotation(vals: ValMap, dense: map<int, map<int, int>>, lo: int, hi: int, lc: int, v: Validators)
    requires ValsIndexed(vals, dense, lo, hi) && lo <= hi && Rotates(vals, lo, hi)
    requires lc == hi + 1 || (lc == vals[hi].lastHeightChanged && v.members == dense[hi])
    requires lc <= hi ==> LoadValidators(vals, hi).Loaded? && v.priorities == PrioritiesAt(vals, hi) + 1
    ensures var vals' := SaveValidatorsInfo(vals, hi + 1, lc, v);
      && Rotates(vals', lo, hi + 1)
      && LoadValidators(vals', hi + 1).Loaded? && PrioritiesAt(vals', hi + 1) == v.priorities
  {
    hide ValEntryOK, LoadValidators;
    var vals' := SaveValidatorsInfo(vals, hi + 1, lc, v);
    RewriteAbove(vals, dense, lo, hi, vals'[hi + 1]);
    SparseEqualsDense(vals, dense, lo, hi, hi);
    LoadsNew(vals, dense, lo, hi, lc, v);
    forall h | lo <= h < hi + 1 ensures RotatesAt(vals', h) {
      if h < hi {
        assert RotatesAt(vals, h);
        assert LoadValidators(vals', h) == LoadValidators(vals, h);
        assert LoadValidators(vals', h + 1) == LoadValidators(vals, h + 1);
      }
    }
  }

  lemma LoadsNew(vals: ValMap, dense: map<int, map<int, int>>, lo: int, hi: int, lc: int, v: Validators)
    requires ValsIndexed(vals, dense, lo, hi) && lo <= hi
    requires lc == hi + 1 || (lc == vals[hi].lastHeightChanged && v.members == dense[hi])
    requires lc <= hi ==> LoadValidators(vals, hi).Loaded? && v.priorities == PrioritiesAt(vals, hi) + 1
    ensures var vals' := SaveValidatorsInfo(vals, hi + 1, lc, v);
      && LoadValidators(vals', hi + 1).Loaded? && LoadValidators(vals', hi + 1).value.priorities == v.priorities
  {
    NewEntry(vals, dense, lo, hi, lc, v);
    assert ValEntryOK(vals, dense, hi);
    if lc <= hi && (hi + 1) % CHECKPOINT_INTERVAL != 0 {
      NextCheckpoint(hi);
      assert LastStoredHeightFor(hi + 1, lc) == LastStoredHeightFor(hi, lc);
    }
  }

  // ------------------------------------------------------------------------ pruning

  /** What PruneStates keeps below `to`: where the set at `to` comes from. */
  function KeepVals(vals: ValMap, to': int): set<int>
    requires to' in vals
  {
    if vals[to'].stored.Some? then {}
    else {vals[to'].lastHeightChanged, LastStoredHeightFor(to', vals[to'].lastHeightChanged)}
  }

  function KeepParams(params: ParamMap, to': int): set<int>
    requires to' in params
  {
    if params[to'].params.Some? then {} else {params[to'].lastHeightChanged}
  }

  /** The sets that heights from `to` upward come from are at or above `to`, or kept. */
  lemma SourcesKept(vals: ValMap, dense: map<int, map<int, int>>, lo: int, hi: int, to': int, h: int)
    requires ValsIndexed(vals, dense, lo, hi) && lo <= to' <= h <= hi && vals[h].stored.None?
    ensures var t := LastStoredHeightFor(h, vals[h].lastHeightChanged); t >= to' || t in KeepVals(vals, to')
  {
    var t := LastStoredHeightFor(h, vals[h].lastHeightChanged);
    assert ValEntryOK(vals, dense, h) && ValEntryOK(vals, dense, to');
    if t < to' {
      assert vals[to'].lastHeightChanged == vals[h].lastHeightChanged;
      SameCheckpoint(to', h);
    }
  }

  /** And no more is kept: only what `to` itself comes from, and where its set last changed. */
  lemma KeptForItself(vals: ValMap, params: ParamMap, to': int)
    requires to' in vals && to' in params
    ensures KeepVals(vals, to') != {} ==> vals[to'].stored.None?
    ensures forall h | h in KeepVals(vals, to') ::
      h in {vals[to'].lastHeightChanged, LastStoredHeightFor(to', vals[to'].lastHeightChanged)}
    ensures forall h | h in KeepParams(params, to') :: params[to'].params.None? && h == params[to'].lastHeightChanged
  {
  }

  /** Entries from `to` upward and the kept sources are as before. */
  ghost predicate ValsRetained(vals: ValMap, vals': ValMap, to': int, keep: set<int>) {
    && (forall h | h >= to' :: (h in vals <==> h in vals') && (h in vals ==> vals'[h] == vals[h]))
    && (forall h | h in keep && h in vals && vals[h].stored.Some? :: h in vals' && vals'[h] == vals[h])
  }

  ghost predicate ParamsRetained(params: ParamMap, params': ParamMap, to': int, keep: set<int>) {
    && (forall h | h >= to' :: (h in params <==> h in params') && (h in params ==> params'[h] == params[h]))
    && (forall h | h in keep && h in params && params[h].params.Some? :: h in params' && params'[h] == params[h])
  }

  /** Retained entries are all that heights from `to` upward need. */
  lemma PruneInvisible(vals: ValMap, vals': ValMap, dense: map<int, map<int, int>>, lo: int, hi: int, to': int)
    requires ValsIndexed(vals, dense, lo, hi) && lo <= to' <= hi
    requires ValsRetained(vals, vals', to', KeepVals(vals, to'))
    ensures ValsIndexed(vals', dense, to', hi)
    ensures forall h | to' <= h <= hi :: LoadValidators(vals', h) == LoadValidators(vals, h)
  {
    forall h | to' <= h <= hi
      ensures ValEntryOK(vals', dense, h) && LoadValidators(vals', h) == LoadValidators(vals, h)
    {
      assert ValEntryOK(vals, dense, h);
      if vals[h].stored.None? {
        SourcesKept(vals, dense, lo, hi, to', h);
      }
    }
  }

  lemma PruneParamsInvisible(params: ParamMap, params': ParamMap, dense: map<int, Params>, lo: int, hi: int, to': int)
    requires ParamsIndexed(params, dense, lo, hi) && lo <= to' <= hi
    requires ParamsRetained(params, params', to', KeepParams(params, to'))
    ensures ParamsIndexed(params', dense, to', hi)
    ensures forall h | to' <= h <= hi :: LoadParams(params', h) == LoadParams(params, h)
  {
    forall h | to' <= h <= hi
      ensures ParamEntryOK(params', dense, h) && LoadParams(params', h) == LoadParams(params, h)
    {
      assert ParamEntryOK(params, dense, h) && ParamEntryOK(params, dense, to');
    }
  }

  // ----------------------------------------------------------------------- rollback

  /** Where rolling the state back from height `n` leaves the validators' change height. */
  function RolledBackChange(n: int, lastHeightChanged: int): int {
    if lastHeightChanged > n - 1 then n else lastHeightChanged
  }

  /** When the entry for `n + 1` survives being rewritten with that change height: it is a
      checkpoint, or the set last changed before `n`, or the set at `n` is stored in full
      and did not change at `n + 1`. */
  ghost predicate RollbackKeeps(vals: ValMap, dense: map<int, map<int, int>>, n: int)
    requires n in vals && n + 2 in vals && n in dense && n + 1 in dense
  {
    || (n + 1) % CHECKPOINT_INTERVAL == 0
    || vals[n + 2].lastHeightChanged < n
    || (vals[n].stored.Some? && dense[n] == dense[n + 1])
  }

  /** Rolling back from `n` rewrites the entry for `n + 1`. It still loads the set in force
      there exactly when RollbackKeeps; heights up to `n` are not affected. */
  lemma RollbackRewrite(vals: ValMap, dense: map<int, map<int, int>>, lo: int, n: int, v: Validators)
    requires ValsIndexed(vals, dense, lo, n + 2) && lo < n && v.members == dense[n + 1]
    ensures var vals' := SaveValidatorsInfo(vals, n + 1, RolledBackChange(n, vals[n + 2].lastHeightChanged), v);
      && (RollbackKeeps(vals, dense, n) <==>
            LoadValidators(vals', n + 1).Loaded? && LoadValidators(vals', n + 1).value.members == dense[n + 1])
      && (forall h | lo <= h <= n :: LoadValidators(vals', h) == LoadValidators(vals, h))
  {
    var lc := vals[n + 2].lastHeightChanged;
    var vals' := SaveValidatorsInfo(vals, n + 1, RolledBackChange(n, lc), v);
    assert ValEntryOK(vals, dense, n) && ValEntryOK(vals, dense, n + 1);
    if lc < n {
      assert vals[n + 1].lastHeightChanged == lc;
    } else if (n + 1) % CHECKPOINT_INTERVAL != 0 {
      NextCheckpoint(n);
      assert LastStoredHeightFor(n + 1, n) == n;
    }
    RewriteAbove(vals, dense, lo, n, vals'[n + 1]);
  }

  /** Heights load from below, so that an entry above does not matter. */
  lemma RewriteAbove(vals: ValMap, dense: map<int, map<int, int>>, lo: int, n: int, info: ValidatorsInfo)
    requires ValsIndexed(vals, dense, lo, n)
    ensures forall h | lo <= h <= n :: LoadValidators(vals[n + 1 := info], h) == LoadValidators(vals, h)
  {
    forall h | lo <= h <= n ensures LoadValidators(vals[n + 1 := info], h) == LoadValidators(vals, h) {
      assert ValEntryOK(vals, dense, h);
    }
  }

  /** Parameters of height `n`, rewritten by the rollback, always still load. */
  lemma RollbackParams(params: ParamMap, dense: map<int, Params>, lo: int, n: int, p: Params)
    requires ParamsIndexed(params, dense, lo, n + 1) && lo <= n && p == dense[n]
    ensures var params' := SaveParamsInfo(params, n, RolledBackChange(n, params[n + 1].lastHeightChanged), p);
      forall h | lo <= h <= n :: LoadParams(params', h) == LoadParams(params, h)
  {
    var params' := SaveParamsInfo(params, n, RolledBackChange(n, params[n + 1].lastHeightChanged), p);
    forall h | lo <= h <= n ensures LoadParams(params', h) == LoadParams(params, h) {
      assert ParamEntryOK(params, dense, h) && ParamEntryOK(params, dense, n);
    }
  }

  /** A set in force since height 5, replaced by block 19 with effect from height 21: the
      index is sound, but rolled back from height 19, height 20 no longer loads. */
  lemma RollbackLosesNextSet(a: Validators, b: Validators)
    ensures var vals: ValMap := map[5 := ValidatorsInfo(5, Some(a)), 18 := ValidatorsInfo(5, None),
              19 := ValidatorsInfo(5, None), 20 := ValidatorsInfo(5, None), 21 := ValidatorsInfo(21, Some(b))];
      var dense := map[18 := a.members, 19 := a.members, 20 := a.members, 21 := b.members];
      && ValsIndexed(vals, dense, 18, 21)
      && LoadValidators(vals, 20) == Loaded(Validators(a.members, a.priorities + 15))
      && LoadValidators(SaveValidatorsInfo(vals, 20, RolledBackChange(19, 21), a), 20) == NotFound
  {
    var vals: ValMap := map[5 := ValidatorsInfo(5, Some(a)), 18 := ValidatorsInfo(5, None),
      19 := ValidatorsInfo(5, None), 20 := ValidatorsInfo(5, None), 21 := ValidatorsInfo(21, Some(b))];
    var dense := map[18 := a.members, 19 := a.members, 20 := a.members, 21 := b.members];
    forall h | 18 <= h <= 21 ensures h in vals && h in dense && ValEntryOK(vals, dense, h) {
      assert h == 18 || h == 19 || h == 20 || h == 21;
    }
  }
}
