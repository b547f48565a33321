/** The state store: each saved state records the validators of the next height and the
    parameters, voter parameters and proof hash of its own; states are bootstrapped,
    pruned in batches and rolled back by one height. */
module StateStore {
  import opened Collections
  import opened SparseHistory

  type Members = map<int, int>

  datatype State = State(
    initialHeight: int, lastBlockHeight: int, lastBlockID: int, lastBlockTime: int,
    nextValidators: Validators, validators: Validators, voters: Members, lastVoters: Members,
    voterParams: int, lastProofHash: int, lastHeightValidatorsChanged: int,
    consensusParams: Params, lastHeightParamsChanged: int, lastResultsHash: int, appHash: int)

  /** The database: one map for each kind of key. */
  datatype Db = Db(vals: ValMap, params: ParamMap, voterParams: map<int, int>, proofs: map<int, int>,
                   state: Option<State>)

  /** SelectVoter, by validators' addresses and powers, proof hash and voter parameters. */
  type Selector = (Members, int, int) -> Members

  function NextHeight(s: State): int {
    if s.lastBlockHeight + 1 == 1 then s.initialHeight else s.lastBlockHeight + 1
  }

  // ------------------------------------------------------------------- state updates

  /** The validator updates of a block: powers by address, 0 to remove one; or updates that
      do not validate or exceed the total power. */
  datatype ValidatorUpdates = NoUpdates | Rejected | Powers(powers: Members)

  datatype ParamUpdates = NoChange | Invalid | NewParams(params: int)

  datatype Responses = Responses(validators: ValidatorUpdates, params: ParamUpdates, resultsHash: int)

  datatype Header = Header(height: int, time: int, proofHash: Option<int>, lastResultsHash: int, appHash: int)

  /** UpdateWithChangeSet: refused over a negative power, the removal of someone who is not
      there, and if nobody would be left. */
  function ChangeSet(members: Members, powers: Members): Option<Members> {
    if exists a | a in powers :: powers[a] < 0 || (powers[a] == 0 && a !in members) then None
    else
      var changed := map a | a in members.Keys + powers.Keys && (a in powers ==> powers[a] > 0) ::
        if a in powers then powers[a] else members[a];
      if changed == map[] then None else Some(changed)
  }

  predicate ChangesValidators(responses: Responses) {
    responses.validators.Powers? && responses.validators.powers != map[]
  }

  function NextMembers(members: Members, responses: Responses): Option<Members> {
    if responses.validators.Rejected? then None
    else if ChangesValidators(responses) then ChangeSet(members, responses.validators.powers)
    else Some(members)
  }

  function UpdateState(s: State, blockID: int, header: Header, responses: Responses, appHash: int,
                       select: Selector): Option<State> {
    var next := NextMembers(s.nextValidators.members, responses);
    if next.None? || responses.params.Invalid? || header.proofHash.None? then None
    else
      var proofHash := header.proofHash.value;
      Some(State(s.initialHeight, header.height, blockID, header.time,
        Increment(s.nextValidators.(members := next.value), 1), s.nextValidators,
        select(s.nextValidators.members, proofHash, s.voterParams), s.voters,
        s.voterParams, proofHash,
        if ChangesValidators(responses) then header.height + 2 else s.lastHeightValidatorsChanged,
        if responses.params.NewParams? then Some(responses.params.params) else s.consensusParams,
        if responses.params.NewParams? then header.height + 1 else s.lastHeightParamsChanged,
        responses.resultsHash, appHash))
  }

  /** What validateBlock demands of the header of the next block. */
  predicate ValidHeader(s: State, header: Header) {
    header.height == NextHeight(s) && header.lastResultsHash == s.lastResultsHash && header.appHash == s.appHash
  }

  function SaveState(db: Db, s: State): Db {
    var h := NextHeight(s);
    var vals := if s.lastBlockHeight + 1 == 1 then SaveValidatorsInfo(db.vals, h, h, s.validators) else db.vals;
    Db(SaveValidatorsInfo(vals, h + 1, s.lastHeightValidatorsChanged, s.nextValidators),
       SaveParamsInfo(db.params, h, s.lastHeightParamsChanged, s.consensusParams),
       db.voterParams[h := s.voterParams], db.proofs[h := s.lastProofHash], Some(s))
  }

  function BootState(db: Db, s: State): Db {
    var h := NextHeight(s);
    Db(SaveValidatorsInfo(SaveValidatorsInfo(db.vals, h, h, s.validators), h + 1, h + 1, s.nextValidators),
       SaveParamsInfo(db.params, h, s.lastHeightParamsChanged, s.consensusParams),
       db.voterParams[h := s.voterParams], db.proofs[h := s.lastProofHash], Some(s))
  }

  // --------------------------------------------------------- the store and its history

  /** What was in force at every height from `lo` upward, kept in full. */
  datatype History = History(lo: int, members: map<int, Members>, voters: map<int, Members>, params: map<int, Params>,
                             voterParams: map<int, int>, proofs: map<int, int>)

  function FirstHistory(s: State): History {
    var h := NextHeight(s);
    History(h, map[h := s.validators.members, h + 1 := s.nextValidators.members], map[h := s.voters],
      map[h := s.consensusParams], map[h := s.voterParams], map[h := s.lastProofHash])
  }

  /** A state put together by others tells what is in force from its height on. */
  function RecordState(hist: History, s: State): History {
    var h := NextHeight(s);
    hist.(members := hist.members[h + 1 := s.nextValidators.members], voters := hist.voters[h := s.voters],
      params := hist.params[h := s.consensusParams], voterParams := hist.voterParams[h := s.voterParams],
      proofs := hist.proofs[h := s.lastProofHash])
  }

  /** The history goes on with this block. */
  predicate Continues(hist: History, header: Header, responses: Responses) {
    var h := header.height;
    && h + 1 in hist.members && h in hist.params && h in hist.voterParams && header.proofHash.Some?
    && NextMembers(hist.members[h + 1], responses).Some?
  }

  /** A block tells, by its header and what the application answered, what is in force at
      the heights after it. */
  function Record(hist: History, header: Header, responses: Responses, select: Selector): History {
    if !Continues(hist, header, responses) then hist
    else
      var h, proof := header.height, header.proofHash.value;
      hist.(members := hist.members[h + 2 := NextMembers(hist.members[h + 1], responses).value],
        voters := hist.voters[h + 1 := select(hist.members[h + 1], proof, hist.voterParams[h])],
        params := hist.params[h + 1 :=
          if responses.params.NewParams? then Some(responses.params.params) else hist.params[h]],
        voterParams := hist.voterParams[h + 1 := hist.voterParams[h]], proofs := hist.proofs[h + 1 := proof])
  }

  /** The database agrees with the history, from `lo` up to the saved state. */
  ghost predicate StoreOK(db: Db, hist: History, select: Selector) {
    && db.state.Some?
    && StateOK(db.state.value, db, hist)
    && ValsIndexed(db.vals, hist.members, hist.lo, NextHeight(db.state.value) + 1)
    && ParamsIndexed(db.params, hist.params, hist.lo, NextHeight(db.state.value))
    && VotersIndexed(db, hist, NextHeight(db.state.value), select)
  }

  ghost predicate StateOK(s: State, db: Db, hist: History) {
    var n := NextHeight(s);
    && 1 <= hist.lo <= n && s.lastBlockHeight >= 0 && s.initialHeight >= 1
    && n in hist.members && n + 1 in hist.members && n in hist.params && n in hist.voters
    && n in db.params && n + 1 in db.vals && n in db.voterParams && n in db.proofs
    && hist.members[n] == s.validators.members && hist.members[n + 1] == s.nextValidators.members
    && hist.params[n] == s.consensusParams && s.consensusParams.Some? && hist.voters[n] == s.voters
    && (hist.lo < n ==> n - 1 in hist.voters && hist.voters[n - 1] == s.lastVoters)
    && db.vals[n + 1].lastHeightChanged == s.lastHeightValidatorsChanged
    && db.params[n].lastHeightChanged == s.lastHeightParamsChanged
    && db.voterParams[n] == s.voterParams && db.proofs[n] == s.lastProofHash
    && n in hist.voterParams && hist.voterParams[n] == s.voterParams
  }

  ghost predicate VotersIndexed(db: Db, hist: History, hi: int, select: Selector) {
    forall h | hist.lo <= h <= hi ::
      && h in db.voterParams && h in db.proofs && h in hist.members && h in hist.voters
      && h in hist.voterParams && h in hist.proofs
      && db.voterParams[h] == hist.voterParams[h] && db.proofs[h] == hist.proofs[h]
      && hist.voters[h] == select(hist.members[h], hist.proofs[h], hist.voterParams[h])
  }

  ghost predicate FirstState(s: State, select: Selector) {
    && s.initialHeight >= 1 && s.lastBlockHeight >= 0
    && s.voters == select(s.validators.members, s.lastProofHash, s.voterParams)
    && s.lastHeightParamsChanged == NextHeight(s) && s.consensusParams.Some?
  }

  /** A genesis state: the same validators for the first two heights. */
  ghost predicate GenesisState(s: State, select: Selector) {
    && FirstState(s, select)
    && s.lastBlockHeight == 0 && s.lastHeightValidatorsChanged == s.initialHeight
    && s.nextValidators.members == s.validators.members
  }

  /** A state assembled from light blocks by the state provider. */
  ghost predicate SyncedState(s: State, select: Selector) {
    FirstState(s, select) && s.lastHeightValidatorsChanged == NextHeight(s) + 1
  }

  lemma SaveGenesisOK(db: Db, s: State, select: Selector)
    requires GenesisState(s, select)
    ensures StoreOK(SaveState(db, s), FirstHistory(s), select)
  {
    var h := NextHeight(s);
    FirstVals(db.vals, h, s.validators);
    ExtendVals(SaveValidatorsInfo(db.vals, h, h, s.validators), map[h := s.validators.members], h, h,
      s.lastHeightValidatorsChanged, s.nextValidators);
    FirstParams(db.params, h, s.consensusParams);
    assert map[h := s.validators.members][h + 1 := s.nextValidators.members] == FirstHistory(s).members;
  }

  lemma BootstrapOK(db: Db, s: State, select: Selector)
    requires SyncedState(s, select)
    ensures StoreOK(BootState(db, s), FirstHistory(s), select)
  {
    var h := NextHeight(s);
    FirstVals(db.vals, h, s.validators);
    ExtendVals(SaveValidatorsInfo(db.vals, h, h, s.validators), map[h := s.validators.members], h, h,
      h + 1, s.nextValidators);
    FirstParams(db.params, h, s.consensusParams);
    assert map[h := s.validators.members][h + 1 := s.nextValidators.members] == FirstHistory(s).members;
  }

  /** A node that state syncs bootstraps the previous state first, then the current one. */
  lemma BootstrapNextOK(db: Db, hist: History, s: State, select: Selector)
    requires StoreOK(db, hist, select) && SyncedState(s, select)
    requires var prev := db.state.value;
      && s.lastBlockHeight == NextHeight(prev) && s.validators.members == prev.nextValidators.members
      && s.lastVoters == prev.voters
    ensures StoreOK(BootState(db, s), RecordState(hist, s), select)
  {
    hide ValsIndexed, ParamsIndexed, VotersIndexed;
    var h := NextHeight(s);
    BootVoters(db, hist, s, select);
    DropLast(db.vals, hist.members, hist.lo, h);
    ExtendVals(db.vals, hist.members, hist.lo, h - 1, h, s.validators);
    var vals := SaveValidatorsInfo(db.vals, h, h, s.validators);
    assert hist.members[h := s.validators.members] == hist.members;
    ExtendVals(vals, hist.members, hist.lo, h, h + 1, s.nextValidators);
    ExtendParams(db.params, hist.params, hist.lo, h - 1, h, s.consensusParams);
  }

  lemma DropLast(vals: ValMap, dense: map<int, Members>, lo: int, hi: int)
    requires ValsIndexed(vals, dense, lo, hi)
    ensures ValsIndexed(vals, dense, lo, hi - 1)
  {
  }

  /** Applying the next block and saving the state keeps the store in step. */
  lemma SaveOK(db: Db, hist: History, blockID: int, header: Header, responses: Responses, appHash: int,
               select: Selector)
    requires StoreOK(db, hist, select) && header.height == NextHeight(db.state.value)
    requires UpdateState(db.state.value, blockID, header, responses, appHash, select).Some?
    ensures var s := UpdateState(db.state.value, blockID, header, responses, appHash, select).value;
      && s.lastHeightValidatorsChanged <= NextHeight(s) + 1
      && StoreOK(SaveState(db, s), Record(hist, header, responses, select), select)
  {
    hide ValsIndexed, ParamsIndexed, VotersIndexed;
    var prev := db.state.value;
    var s := UpdateState(prev, blockID, header, responses, appHash, select).value;
    var h := NextHeight(s);
    assert h == header.height + 1;
    assert Record(hist, header, responses, select) == RecordState(hist, s);
    LastChangeBelow(db.vals, hist.members, hist.lo, h);
    ExtendVals(db.vals, hist.members, hist.lo, h, s.lastHeightValidatorsChanged, s.nextValidators);
    ExtendParams(db.params, hist.params, hist.lo, h - 1, s.lastHeightParamsChanged, s.consensusParams);
    SaveVoters(db, hist, s, select);
  }

  lemma LastChangeBelow(vals: ValMap, dense: map<int, Members>, lo: int, h: int)
    requires ValsIndexed(vals, dense, lo, h) && lo <= h
    ensures vals[h].lastHeightChanged <= h
  {
    assert ValEntryOK(vals, dense, h);
  }

  lemma SaveVoters(db: Db, hist: History, s: State, select: Selector)
    requires StoreOK(db, hist, select) && NextHeight(s) == NextHeight(db.state.value) + 1
    requires s.validators.members == db.state.value.nextValidators.members && s.lastBlockHeight >= 1
    requires s.voters == select(s.validators.members, s.lastProofHash, s.voterParams)
    ensures VotersIndexed(SaveState(db, s), RecordState(hist, s), NextHeight(s), select)
  {
    hide ValsIndexed, ParamsIndexed;
  }

  lemma BootVoters(db: Db, hist: History, s: State, select: Selector)
    requires StoreOK(db, hist, select) && NextHeight(s) == NextHeight(db.state.value) + 1
    requires s.validators.members == db.state.value.nextValidators.members
    requires s.voters == select(s.validators.members, s.lastProofHash, s.voterParams)
    ensures VotersIndexed(BootState(db, s), RecordState(hist, s), NextHeight(s), select)
  {
    hide ValsIndexed, ParamsIndexed;
  }

  // ------------------------------------------------------------------------- loading

  function LoadVoters(db: Db, height: int, voterParams: Option<int>, select: Selector)
    : Load<(Validators, Members, int, int)>
  {
    var v := LoadValidators(db.vals, height);
    if !v.Loaded? then (if v.Panic? then Panic else NotFound)
    else if voterParams.None? && height !in db.voterParams then NotFound
    else if height !in db.proofs then NotFound
    else
      var p := if voterParams.Some? then voterParams.value else db.voterParams[height];
      Loaded((v.value, select(v.value.members, db.proofs[height], p), p, db.proofs[height]))
  }

  /** Every height in the history loads the validators, voters and parameters used there. */
  lemma LoadsHistory(db: Db, hist: History, select: Selector, h: int)
    requires StoreOK(db, hist, select) && hist.lo <= h <= NextHeight(db.state.value)
    ensures h in hist.members && h in hist.voters && h in hist.params && h in db.voterParams && h in db.proofs
    ensures LoadVoters(db, h, None, select).Loaded?
    ensures LoadVoters(db, h, None, select).value.0.members == hist.members[h]
    ensures LoadVoters(db, h, None, select).value.1 == hist.voters[h]
    ensures h in hist.voterParams && LoadVoters(db, h, None, select).value.2 == hist.voterParams[h]
    ensures h in hist.proofs && LoadVoters(db, h, None, select).value.3 == hist.proofs[h]
    ensures LoadParams(db.params, h) == Loaded(hist.params[h])
  {
    SparseEqualsDense(db.vals, hist.members, hist.lo, NextHeight(db.state.value) + 1, h);
    ParamsEqualDense(db.params, hist.params, hist.lo, NextHeight(db.state.value), h);
  }

  // ------------------------------------------------------------------------- pruning

  /** What a prune up to `to'` leaves alone, however far it got. */
  ghost predicate Pruned(db: Db, db': Db, to': int) {
    && to' in db.vals && to' in db.params
    && db'.state == db.state
    && ValsRetained(db.vals, db'.vals, to', KeepVals(db.vals, to'))
    && ParamsRetained(db.params, db'.params, to', KeepParams(db.params, to'))
    && Above(db.voterParams, db'.voterParams, to') && Above(db.proofs, db'.proofs, to')
  }

  ghost predicate Above(m: map<int, int>, m': map<int, int>, to': int) {
    forall h | h >= to' :: (h in m <==> h in m') && (h in m ==> m'[h] == m[h])
  }

  /** Pruning shortens the history and is not seen at or above `to'`. */
  lemma PrunedOK(db: Db, db': Db, hist: History, to': int, select: Selector)
    requires StoreOK(db, hist, select) && Pruned(db, db', to')
    requires hist.lo <= to' <= NextHeight(db.state.value)
    ensures StoreOK(db', hist.(lo := to'), select)
    ensures forall h | to' <= h <= NextHeight(db.state.value) ::
      && LoadVoters(db', h, None, select) == LoadVoters(db, h, None, select)
      && LoadParams(db'.params, h) == LoadParams(db.params, h)
  {
    var n := NextHeight(db.state.value);
    PruneInvisible(db.vals, db'.vals, hist.members, hist.lo, n + 1, to');
    PruneParamsInvisible(db.params, db'.params, hist.params, hist.lo, n, to');
    hide ValsIndexed, ParamsIndexed, KeepVals, KeepParams;
  }

  // ---------------------------------------------------------------------------- runs

  datatype Event =
    | Apply(blockID: int, header: Header, responses: Responses, appHash: int)
    | Prune(height: int)

  ghost predicate Step(db: Db, e: Event, db': Db, select: Selector) {
    match e
    case Apply(blockID, header, responses, appHash) =>
      && db.state.Some? && ValidHeader(db.state.value, header)
      && var s := UpdateState(db.state.value, blockID, header, responses, appHash, select);
      s.Some? && db' == SaveState(db, s.value)
    case Prune(height) => Pruned(db, db', height)
  }

  ghost predicate IsRun(dbs: seq<Db>, events: seq<Event>, select: Selector) {
    && |dbs| == |events| + 1
    && forall i | 0 <= i < |events| :: Step(dbs[i], events[i], dbs[i + 1], select)
  }

  /** What the blocks of a run and their answers make of a history. */
  function HistoryAfter(hist: History, events: seq<Event>, select: Selector): History {
    if |events| == 0 then hist
    else
      var before := HistoryAfter(hist, events[..|events| - 1], select);
      match events[|events| - 1]
      case Prune(height) => before.(lo := height)
      case Apply(_, header, responses, _) => Record(before, header, responses, select)
  }

  /** Every prune asks for a height whose state the store still has. */
  ghost predicate PrunesKept(hist: History, events: seq<Event>, dbs: seq<Db>, select: Selector)
    requires |dbs| == |events| + 1
  {
    forall i | 0 <= i < |events| && events[i].Prune? ::
      && dbs[i].state.Some?
      && HistoryAfter(hist, events[..i], select).lo <= events[i].height <= NextHeight(dbs[i].state.value)
  }

  lemma PrunesKeptBefore(hist: History, events: seq<Event>, dbs: seq<Db>, select: Selector)
    requires |dbs| == |events| + 1 && |events| > 0 && PrunesKept(hist, events, dbs, select)
    ensures PrunesKept(hist, events[..|events| - 1], dbs[..|events|], select)
  {
    hide HistoryAfter;
    var events', dbs' := events[..|events| - 1], dbs[..|events|];
    forall i | 0 <= i < |events'| && events'[i].Prune?
      ensures dbs'[i].state.Some?
      ensures HistoryAfter(hist, events'[..i], select).lo <= events'[i].height <= NextHeight(dbs'[i].state.value)
    {
      assert events'[i].Prune? && events'[i] == events[i];
      assert events'[..i] == events[..i];
    }
  }

  /** One more block or prune. */
  lemma StepOK(db: Db, hist: History, e: Event, db': Db, select: Selector)
    requires StoreOK(db, hist, select) && Step(db, e, db', select)
    requires e.Prune? ==> db.state.Some? && hist.lo <= e.height <= NextHeight(db.state.value)
    ensures StoreOK(db', if e.Prune? then hist.(lo := e.height)
                         else Record(hist, e.header, e.responses, select), select)
  {
    match e
    case Apply(blockID, header, responses, appHash) =>
      SaveOK(db, hist, blockID, header, responses, appHash, select);
    case Prune(height) =>
      PrunedOK(db, db', hist, height, select);
  }

  /** Over every run of blocks and prunes the store agrees with the history that the blocks
      and their answers make. */
  lemma {:induction false} RunOK(hist: History, events: seq<Event>, dbs: seq<Db>, select: Selector)
    requires IsRun(dbs, events, select) && StoreOK(dbs[0], hist, select) && PrunesKept(hist, events, dbs, select)
    ensures StoreOK(dbs[|events|], HistoryAfter(hist, events, select), select)
    decreases |events|
  {
    hide StoreOK, Step, Record;
    var n := |events|;
    if n > 0 {
      var events', dbs' := events[..n - 1], dbs[..n];
      PrunesKeptBefore(hist, events, dbs, select);
      assert Step(dbs[n - 1], events[n - 1], dbs[n], select);
      hide PrunesKept;
      RunOK(hist, events', dbs', select);
      StepOK(dbs[n - 1], HistoryAfter(hist, events', select), events[n - 1], dbs[n], select);
    }
  }

  // ----------------------------------------------------- what a block puts in force

  /** These powers turn one set of members into the other. */
  ghost predicate Applied(before: Members, powers: Members, after: Members) {
    && (forall a | a in powers :: (a in after <==> powers[a] > 0) && (a in after ==> after[a] == powers[a]))
    && (forall a | a !in powers :: (a in after <==> a in before) && (a in after ==> after[a] == before[a]))
  }

  /** A negative power, the removal of someone who is not there, or nobody left. */
  ghost predicate Refused(members: Members, powers: Members) {
    || (exists a | a in powers :: powers[a] < 0 || (powers[a] == 0 && a !in members))
    || (forall a | a in members.Keys + powers.Keys :: a in powers && powers[a] <= 0)
  }

  /** When a change set is refused, and what it does otherwise. */
  lemma ChangeSetApplies(members: Members, powers: Members)
    ensures ChangeSet(members, powers).None? <==> Refused(members, powers)
    ensures ChangeSet(members, powers).Some? ==> Applied(members, powers, ChangeSet(members, powers).value)
  {
    if !exists a | a in powers :: powers[a] < 0 || (powers[a] == 0 && a !in members) {
      var changed := map a | a in members.Keys + powers.Keys && (a in powers ==> powers[a] > 0) ::
        if a in powers then powers[a] else members[a];
      if a :| a in members.Keys + powers.Keys && !(a in powers && powers[a] <= 0) {
        assert a in changed;
      } else {
        assert forall b :: b !in changed;
        assert changed == map[];
      }
    }
  }

  /** Exactly when a block updates the state: its validator updates and parameters validate
      and apply, and its proof gives a hash. The change heights move exactly with changes. */
  lemma UpdateGoesThrough(s: State, blockID: int, header: Header, responses: Responses, appHash: int, select: Selector)
    ensures var s', powers := UpdateState(s, blockID, header, responses, appHash, select),
                    if responses.validators.Powers? then responses.validators.powers else map[];
      && (s'.Some? <==>
            && !responses.validators.Rejected? && !responses.params.Invalid? && header.proofHash.Some?
            && (powers == map[] || !Refused(s.nextValidators.members, powers)))
      && (s'.Some? ==>
            && s'.value.lastHeightValidatorsChanged ==
                 (if powers == map[] then s.lastHeightValidatorsChanged else header.height + 2)
            && s'.value.lastHeightParamsChanged ==
                 (if responses.params.NewParams? then header.height + 1 else s.lastHeightParamsChanged))
  {
    hide ChangeSet, Refused;
    if responses.validators.Powers? {
      ChangeSetApplies(s.nextValidators.members, responses.validators.powers);
    }
  }

  /** Exactly when voters load: the validators do, the voter parameters are given or stored,
      and the proof hash is stored. They are selected from these. */
  lemma VotersLoad(db: Db, height: int, voterParams: Option<int>, select: Selector)
    ensures var r, v := LoadVoters(db, height, voterParams, select), LoadValidators(db.vals, height);
      && (r.Loaded? <==> v.Loaded? && height in db.proofs && (voterParams.Some? || height in db.voterParams))
      && (r.Panic? <==> v.Panic?)
      && (r.Loaded? ==>
            && r.value.0 == v.value && r.value.3 == db.proofs[height]
            && (voterParams.Some? ==> r.value.2 == voterParams.value)
            && (voterParams.None? ==> r.value.2 == db.voterParams[height])
            && r.value.1 == select(r.value.0.members, r.value.3, r.value.2))
  {
    hide LoadValidators;
  }

  /** Block `h` in a history: the members two heights on are those of the next height with
      the block's changes; the parameters of the next height are the block's, or else those
      of `h`; the voters of the next height are selected from its members by the proof of
      the block and the voter parameters, which stay. */
  ghost predicate PutInForce(hist: History, header: Header, responses: Responses, select: Selector) {
    var h := header.height;
    && h + 1 in hist.members && h + 2 in hist.members && h in hist.params && h + 1 in hist.params
    && h + 1 in hist.voters && h + 1 in hist.proofs && h in hist.voterParams && h + 1 in hist.voterParams
    && (match responses.validators
        case Powers(powers) => Applied(hist.members[h + 1], powers, hist.members[h + 2])
        case _ => hist.members[h + 2] == hist.members[h + 1])
    && (hist.params[h + 1] == match responses.params case NewParams(p) => Some(p) case _ => hist.params[h])
    && header.proofHash == Some(hist.proofs[h + 1]) && hist.voterParams[h + 1] == hist.voterParams[h]
    && hist.voters[h + 1] == select(hist.members[h + 1], hist.proofs[h + 1], hist.voterParams[h + 1])
  }

  lemma RecordPuts(db: Db, hist: History, blockID: int, header: Header, responses: Responses, appHash: int,
                   select: Selector)
    requires StoreOK(db, hist, select) && header.height == NextHeight(db.state.value)
    requires UpdateState(db.state.value, blockID, header, responses, appHash, select).Some?
    ensures PutInForce(Record(hist, header, responses, select), header, responses, select)
  {
    hide ValsIndexed, ParamsIndexed, VotersIndexed, ChangeSet;
    var members := db.state.value.nextValidators.members;
    if responses.validators.Powers? {
      ChangeSetApplies(members, responses.validators.powers);
    }
  }

  /** A later block, or a prune, leaves what is in force up to then. */
  lemma PutStays(hist: History, header: Header, responses: Responses, select: Selector, e: Event)
    requires PutInForce(hist, header, responses, select)
    requires e.Apply? ==> e.header.height > header.height
    ensures PutInForce(HistoryAfter(hist, [e], select), header, responses, select)
  {
    hide NextMembers, Applied;
    assert [e][..0] == [];
  }

  lemma HistoryMore(hist: History, events: seq<Event>, select: Selector)
    requires |events| > 0
    ensures HistoryAfter(hist, events, select) ==
      HistoryAfter(HistoryAfter(hist, events[..|events| - 1], select), [events[|events| - 1]], select)
  {
    var last := [events[|events| - 1]];
    assert last[..0] == [];
  }

  /** The blocks of a run come in order. */
  lemma {:induction false} BlocksInOrder(events: seq<Event>, dbs: seq<Db>, select: Selector, i: nat, j: nat)
    requires IsRun(dbs, events, select) && i < j <= |events| && events[i].Apply? && dbs[0].state.Some?
    requires dbs[0].state.value.lastBlockHeight >= 0 && dbs[0].state.value.initialHeight >= 1
    ensures dbs[j].state.Some? && NextHeight(dbs[j].state.value) > events[i].header.height
    ensures dbs[j].state.value.initialHeight >= 1 && dbs[j].state.value.lastBlockHeight >= 0
    decreases j
  {
    StatesStay(events, dbs, select, j - 1);
    assert Step(dbs[j - 1], events[j - 1], dbs[j], select);
    if i < j - 1 {
      BlocksInOrder(events, dbs, select, i, j - 1);
    }
    hide NextMembers;
  }

  lemma {:induction false} StatesStay(events: seq<Event>, dbs: seq<Db>, select: Selector, j: nat)
    requires IsRun(dbs, events, select) && j <= |events| && dbs[0].state.Some?
    requires dbs[0].state.value.lastBlockHeight >= 0 && dbs[0].state.value.initialHeight >= 1
    ensures dbs[j].state.Some? && dbs[j].state.value.initialHeight >= 1 && dbs[j].state.value.lastBlockHeight >= 0
  {
    if j > 0 {
      StatesStay(events, dbs, select, j - 1);
      assert Step(dbs[j - 1], events[j - 1], dbs[j], select);
      hide NextMembers;
    }
  }

  /** Over every run, each block has put in force what its header and answers say. */
  lemma {:induction false} RunPuts(hist: History, events: seq<Event>, dbs: seq<Db>, select: Selector, i: nat)
    requires IsRun(dbs, events, select) && StoreOK(dbs[0], hist, select) && PrunesKept(hist, events, dbs, select)
    requires i < |events| && events[i].Apply?
    ensures PutInForce(HistoryAfter(hist, events, select), events[i].header, events[i].responses, select)
    decreases |events|
  {
    hide StoreOK, PutInForce, HistoryAfter, Record;
    var n := |events| - 1;
    var before := events[..n];
    PrunesKeptBefore(hist, events, dbs, select);
    assert Step(dbs[n], events[n], dbs[n + 1], select);
    HistoryMore(hist, events, select);
    var hist' := HistoryAfter(hist, before, select);
    if i < n {
      RunPuts(hist, before, dbs[..n + 1], select, i);
      FirstStored(dbs[0], hist, select);
      BlocksInOrder(events, dbs, select, i, n);
      assert events[n].Apply? ==> events[n].header.height > events[i].header.height;
      PutStays(hist', events[i].header, events[i].responses, select, events[n]);
    } else {
      RunOK(hist, before, dbs[..n + 1], select);
      var e := events[n];
      RecordPuts(dbs[n], hist', e.blockID, e.header, e.responses, e.appHash, select);
      OneRecord(hist', e, select);
    }
  }

  lemma FirstStored(db: Db, hist: History, select: Selector)
    requires StoreOK(db, hist, select)
    ensures db.state.Some? && db.state.value.lastBlockHeight >= 0 && db.state.value.initialHeight >= 1
  {
  }

  lemma OneRecord(hist: History, e: Event, select: Selector)
    requires e.Apply?
    ensures HistoryAfter(hist, [e], select) == Record(hist, e.header, e.responses, select)
  {
    assert [e][..0] == [];
  }

  /** What can be loaded because of a block: the members of two heights after it are those
      of the height after it with the block's changes, the parameters of the height after it
      are its own or else those before, and the voters of that height are selected from its
      members by the block's proof. */
  ghost predicate LoadsBlock(db: Db, header: Header, responses: Responses, select: Selector) {
    var next, later := LoadVoters(db, header.height + 1, None, select), LoadValidators(db.vals, header.height + 2);
    && next.Loaded? && later.Loaded? && LoadParams(db.params, header.height).Loaded?
    && (match responses.validators
        case Powers(powers) => Applied(next.value.0.members, powers, later.value.members)
        case _ => later.value.members == next.value.0.members)
    && (LoadParams(db.params, header.height + 1) ==
          match responses.params case NewParams(p) => Loaded(Some(p)) case _ => LoadParams(db.params, header.height))
    && header.proofHash == Some(next.value.3)
    && next.value.1 == select(next.value.0.members, next.value.3, next.value.2)
  }

  /** Every block of a run is loaded back like this, as far as it has not been pruned. */
  lemma RunLoads(hist: History, events: seq<Event>, dbs: seq<Db>, select: Selector, i: nat)
    requires IsRun(dbs, events, select) && StoreOK(dbs[0], hist, select) && PrunesKept(hist, events, dbs, select)
    requires i < |events| && events[i].Apply? && HistoryAfter(hist, events, select).lo <= events[i].header.height
    ensures LoadsBlock(dbs[|events|], events[i].header, events[i].responses, select)
  {
    hide Step, PrunesKept, HistoryAfter, Applied, ValsIndexed, ParamsIndexed, LoadVoters, LoadValidators, LoadParams;
    var db, h, hist' := dbs[|events|], events[i].header.height, HistoryAfter(hist, events, select);
    RunOK(hist, events, dbs, select);
    RunPuts(hist, events, dbs, select, i);
    FirstStored(dbs[0], hist, select);
    BlocksInOrder(events, dbs, select, i, |events|);
    LoadsHistory(db, hist', select, h);
    LoadsHistory(db, hist', select, h + 1);
    SparseEqualsDense(db.vals, hist'.members, hist'.lo, NextHeight(db.state.value) + 1, h + 2);
  }

  // ------------------------------------------------------------------------ rotation

  /** Priorities move on by one with every height, and the saved state has the latest. */
  ghost predicate RotationOK(db: Db, hist: History) {
    && db.state.Some?
    && var n := NextHeight(db.state.value);
    && Rotates(db.vals, hist.lo, n + 1) && LoadValidators(db.vals, n + 1).Loaded?
    && PrioritiesAt(db.vals, n + 1) == db.state.value.nextValidators.priorities
  }

  lemma GenesisRotates(db: Db, s: State, select: Selector)
    requires GenesisState(s, select) && s.nextValidators.priorities == s.validators.priorities + 1
    ensures RotationOK(SaveState(db, s), FirstHistory(s))
  {
    hide ValsIndexed;
    var h := NextHeight(s);
    var vals := SaveValidatorsInfo(db.vals, h, h, s.validators);
    FirstVals(db.vals, h, s.validators);
    ExtendRotation(vals, map[h := s.validators.members], h, h, s.lastHeightValidatorsChanged, s.nextValidators);
  }

  lemma BootstrapRotates(db: Db, s: State, select: Selector)
    requires SyncedState(s, select)
    ensures RotationOK(BootState(db, s), FirstHistory(s))
  {
    hide ValsIndexed;
    var h := NextHeight(s);
    var vals := SaveValidatorsInfo(db.vals, h, h, s.validators);
    FirstVals(db.vals, h, s.validators);
    ExtendRotation(vals, map[h := s.validators.members], h, h, h + 1, s.nextValidators);
  }

  lemma StepRotates(db: Db, hist: History, e: Event, db': Db, select: Selector)
    requires StoreOK(db, hist, select) && RotationOK(db, hist) && Step(db, e, db', select)
    requires e.Prune? ==> hist.lo <= e.height <= NextHeight(db.state.value)
    ensures RotationOK(db', if e.Prune? then hist.(lo := e.height) else Record(hist, e.header, e.responses, select))
  {
    hide ValsIndexed, ParamsIndexed, VotersIndexed, LoadValidators, ChangeSet, KeepVals, KeepParams;
    var n := NextHeight(db.state.value);
    if e.Prune? {
      PruneInvisible(db.vals, db'.vals, hist.members, hist.lo, n + 1, e.height);
      forall h | e.height <= h < n + 1 ensures RotatesAt(db'.vals, h) {
        assert RotatesAt(db.vals, h);
      }
    } else {
      var s := db'.state.value;
      LastChangeBelow(db.vals, hist.members, hist.lo, n + 1);
      ExtendRotation(db.vals, hist.members, hist.lo, n + 1, s.lastHeightValidatorsChanged, s.nextValidators);
    }
  }

  /** Over every run of blocks and prunes the proposer priorities that the store loads move
      on by one with every height at which the set does not change. */
  lemma {:induction false} RunRotates(hist: History, events: seq<Event>, dbs: seq<Db>, select: Selector)
    requires IsRun(dbs, events, select) && StoreOK(dbs[0], hist, select) && PrunesKept(hist, events, dbs, select)
    requires RotationOK(dbs[0], hist)
    ensures RotationOK(dbs[|events|], HistoryAfter(hist, events, select))
    decreases |events|
  {
    hide StoreOK, Step, Record, RotationOK;
    var n := |events|;
    if n > 0 {
      var events', dbs' := events[..n - 1], dbs[..n];
      PrunesKeptBefore(hist, events, dbs, select);
      assert Step(dbs[n - 1], events[n - 1], dbs[n], select);
      hide PrunesKept;
      RunOK(hist, events', dbs', select);
      RunRotates(hist, events', dbs', select);
      StepRotates(dbs[n - 1], HistoryAfter(hist, events', select), events[n - 1], dbs[n], select);
    }
  }

  // ------------------------------------------------------------------- the store itself

  datatype PruneOutcome = PruneDone | PruneError | PrunePanic | Stopped

  datatype BlockMeta = BlockMeta(blockID: int, header: Header)

  datatype BlockStore = BlockStore(height: int, metas: map<int, BlockMeta>)

  datatype RollbackOutcome = RolledBack(height: int, appHash: int) | RollbackError

  /** The restored fields: all but the two change heights. */
  ghost predicate Restored(s: State, prev: State) {
    && s.initialHeight == prev.initialHeight && s.lastBlockHeight == prev.lastBlockHeight
    && s.lastBlockID == prev.lastBlockID && s.lastBlockTime == prev.lastBlockTime
    && s.nextValidators == prev.nextValidators && s.validators.members == prev.validators.members
    && s.voters == prev.voters && s.lastVoters == prev.lastVoters
    && s.voterParams == prev.voterParams && s.lastProofHash == prev.lastProofHash
    && s.consensusParams == prev.consensusParams
    && s.lastResultsHash == prev.lastResultsHash && s.appHash == prev.appHash
  }

  /** A change height is restored, or else set to the height that was rolled back: the
      validators' exactly if it is that height, or lower and the block did not change them;
      the parameters' exactly if it is that height or the block did not change them. */
  ghost predicate ChangeHeights(s: State, prev: State, responses: Responses) {
    var n := prev.lastBlockHeight + 1;
    && s.lastHeightValidatorsChanged in {prev.lastHeightValidatorsChanged, n}
    && s.lastHeightParamsChanged in {prev.lastHeightParamsChanged, n}
    && (s.lastHeightValidatorsChanged == prev.lastHeightValidatorsChanged <==>
          prev.lastHeightValidatorsChanged == n
          || (!ChangesValidators(responses) && prev.lastHeightValidatorsChanged < n))
    && (s.lastHeightParamsChanged == prev.lastHeightParamsChanged <==>
          prev.lastHeightParamsChanged == n || !responses.params.NewParams?)
  }

  /** The block store holds the block `prev` came from and the block applied to it. */
  ghost predicate Stores(bs: BlockStore, prev: State) {
    var n := prev.lastBlockHeight + 1;
    && bs.height == n && n - 1 in bs.metas && n in bs.metas
    && bs.metas[n - 1].blockID == prev.lastBlockID
    && bs.metas[n - 1].header.height == n - 1 && bs.metas[n - 1].header.time == prev.lastBlockTime
    && bs.metas[n].header.lastResultsHash == prev.lastResultsHash
    && bs.metas[n].header.appHash == prev.appHash
  }

  /** The store as left by applying one block to `before`, whose last block it still has. */
  ghost predicate Advanced(before: Db, hist: History, e: Event, db: Db, select: Selector) {
    && StoreOK(before, hist, select) && e.Apply? && Step(before, e, db, select)
    && before.state.value.lastBlockHeight >= hist.lo
  }

  /** What rolling back finds in the store is what `prev` held. */
  ghost predicate LoadsPrevious(prev: State, s: State, db: Db, select: Selector) {
    var n := s.lastBlockHeight;
    var last, current := LoadVoters(db, n - 1, None, select), LoadVoters(db, n, None, select);
    && n == prev.lastBlockHeight + 1 && s.initialHeight == prev.initialHeight && s.validators == prev.nextValidators
    && last.Loaded? && last.value.1 == prev.lastVoters
    && current.Loaded? && current.value.0.members == prev.validators.members
    && current.value.1 == prev.voters && current.value.2 == prev.voterParams && current.value.3 == prev.lastProofHash
    && LoadParams(db.params, n) == Loaded(prev.consensusParams)
  }

  lemma RollbackLoads(before: Db, hist: History, e: Event, db: Db, select: Selector)
    requires Advanced(before, hist, e, db, select)
    ensures db.state.Some? && LoadsPrevious(before.state.value, db.state.value, db, select)
  {
    hide ValsIndexed, ParamsIndexed, LoadVoters;
    var s := db.state.value;
    SaveOK(before, hist, e.blockID, e.header, e.responses, e.appHash, select);
    LoadsHistory(db, Record(hist, e.header, e.responses, select), select, s.lastBlockHeight - 1);
    LoadsHistory(db, Record(hist, e.header, e.responses, select), select, s.lastBlockHeight);
  }

  /** All that rolling back looks for is there. */
  predicate Loadable(now: State, bs: BlockStore, db: Db, select: Selector) {
    var n := now.lastBlockHeight;
    && n - 1 in bs.metas && n in bs.metas && LoadVoters(db, n - 1, None, select).Loaded?
    && LoadVoters(db, n, None, select).Loaded? && LoadParams(db.params, n).Loaded?
  }

  /** The state put together from what rolling back finds. */
  function Assembled(now: State, bs: BlockStore, db: Db, select: Selector): State
    requires Loadable(now, bs, db, select)
  {
    var n := now.lastBlockHeight;
    var last, current := LoadVoters(db, n - 1, None, select), LoadVoters(db, n, None, select);
    State(now.initialHeight, bs.metas[n - 1].header.height, bs.metas[n - 1].blockID,
          bs.metas[n - 1].header.time, now.validators, current.value.0, current.value.1, last.value.1,
          current.value.2, current.value.3, RolledBackChange(n, now.lastHeightValidatorsChanged),
          LoadParams(db.params, n).value, RolledBackChange(n, now.lastHeightParamsChanged),
          bs.metas[n].header.lastResultsHash, bs.metas[n].header.appHash)
  }

  lemma AssembledRestores(prev: State, now: State, bs: BlockStore, db: Db, select: Selector)
    requires LoadsPrevious(prev, now, db, select) && Stores(bs, prev)
    ensures Loadable(now, bs, db, select) && Restored(Assembled(now, bs, db, select), prev)
    ensures bs.height == now.lastBlockHeight
    ensures var s := Assembled(now, bs, db, select);
      && s.lastHeightValidatorsChanged == RolledBackChange(now.lastBlockHeight, now.lastHeightValidatorsChanged)
      && s.lastHeightParamsChanged == RolledBackChange(now.lastBlockHeight, now.lastHeightParamsChanged)
      && s.lastBlockHeight == prev.lastBlockHeight && s.appHash == prev.appHash
  {
    hide LoadVoters, LoadParams;
  }

  /** What the rollback of `db` to `db'` does to the entries of the last heights. */
  ghost predicate RollbackEffect(hist: History, db: Db, db': Db) {
    && db.state.Some?
    && var n := db.state.value.lastBlockHeight;
    && n in db.vals && n + 2 in db.vals && n in hist.members && n + 1 in hist.members
    && (RollbackKeeps(db.vals, hist.members, n) <==>
          LoadValidators(db'.vals, n + 1).Loaded? &&
            LoadValidators(db'.vals, n + 1).value.members == hist.members[n + 1])
    && (forall h | hist.lo <= h <= n ::
          LoadValidators(db'.vals, h) == LoadValidators(db.vals, h) &&
            LoadParams(db'.params, h) == LoadParams(db.params, h))
  }

  lemma RolledBackEntries(db: Db, hist: History, select: Selector, s: State)
    requires StoreOK(db, hist, select)
    requires var now := db.state.value; var n := now.lastBlockHeight;
      && hist.lo < n && s.lastBlockHeight == n - 1 && n in hist.params && s.consensusParams == hist.params[n]
      && s.nextValidators == now.validators
      && s.lastHeightValidatorsChanged == RolledBackChange(n, now.lastHeightValidatorsChanged)
      && s.lastHeightParamsChanged == RolledBackChange(n, now.lastHeightParamsChanged)
    ensures RollbackEffect(hist, db, SaveState(db, s))
  {
    hide VotersIndexed, RollbackKeeps, LoadValidators, LoadParams, ValEntryOK, ParamEntryOK;
    var n := db.state.value.lastBlockHeight;
    RollbackRewrite(db.vals, hist.members, hist.lo, n, s.nextValidators);
    RollbackParams(db.params, hist.params, hist.lo, n, s.consensusParams);
  }

  lemma ChangesNotLater(db: Db, hist: History, select: Selector)
    requires StoreOK(db, hist, select)
    ensures db.state.value.lastHeightParamsChanged <= NextHeight(db.state.value)
  {
    hide ValsIndexed, VotersIndexed;
    assert ParamEntryOK(db.params, hist.params, NextHeight(db.state.value));
  }

  lemma RolledBackStore(before: Db, hist: History, e: Event, db: Db, select: Selector, s: State)
    requires Advanced(before, hist, e, db, select)
    requires db.state.Some? && Restored(s, before.state.value)
    requires var now := db.state.value;
      && s.lastHeightValidatorsChanged == RolledBackChange(now.lastBlockHeight, now.lastHeightValidatorsChanged)
      && s.lastHeightParamsChanged == RolledBackChange(now.lastBlockHeight, now.lastHeightParamsChanged)
    ensures s.lastHeightValidatorsChanged <= NextHeight(s) + 1
    ensures RollbackEffect(Record(hist, e.header, e.responses, select), db, SaveState(db, s))
    ensures ChangeHeights(s, before.state.value, e.responses)
  {
    hide ValsIndexed, ParamsIndexed, VotersIndexed, RollbackEffect, SaveValidatorsInfo, SaveParamsInfo;
    SaveOK(before, hist, e.blockID, e.header, e.responses, e.appHash, select);
    RolledBackEntries(db, Record(hist, e.header, e.responses, select), select, s);
    ChangesNotLater(before, hist, select);
  }

  /** The block store holds what Stores asks for once the last two blocks, each valid for
      the state before it, have been applied. */
  lemma StoresApplied(s: State, blockID: int, header: Header, responses: Responses, appHash: int, select: Selector,
                      latest: BlockMeta, bs: BlockStore)
    requires UpdateState(s, blockID, header, responses, appHash, select).Some?
    requires s.initialHeight >= 1 && s.lastBlockHeight >= 0 && ValidHeader(s, header)
    requires var prev := UpdateState(s, blockID, header, responses, appHash, select).value;
      ValidHeader(prev, latest.header)
    requires bs.height == latest.header.height && header.height in bs.metas && bs.height in bs.metas
    requires bs.metas[header.height] == BlockMeta(blockID, header) && bs.metas[bs.height] == latest
    ensures Stores(bs, UpdateState(s, blockID, header, responses, appHash, select).value)
  {
  }

  /** A swept height is gone, or kept with its full set. */
  ghost predicate Swept(batched: Db, keepVals: set<int>, keepParams: set<int>, k: int) {
    && (k !in keepVals ==> k !in batched.vals && k !in batched.voterParams && k !in batched.proofs)
    && (k !in keepParams ==> k !in batched.params)
    && (k in keepVals ==> k in batched.vals && batched.vals[k].stored.Some?)
  }

  /** One height of the sweep: dropped, or kept and made to hold its own set. */
  function SweepVals(vals: ValMap, batched: Db, h: int, keep: set<int>): Load<Db> {
    if h !in keep then
      Loaded(batched.(
        vals := batched.vals - {h}, voterParams := batched.voterParams - {h}, proofs := batched.proofs - {h}))
    else if h in vals && vals[h].stored.Some? then Loaded(batched)
    else match LoadValidators(vals, h)
      case Loaded(v) => Loaded(batched.(vals := batched.vals[h := ValidatorsInfo(h, Some(v))]))
      case Panic => Panic
      case NotFound => NotFound
  }

  function SweepParams(params: ParamMap, batched: Db, h: int, keep: set<int>): Load<Db> {
    if h !in keep then Loaded(batched.(params := batched.params - {h}))
    else if h !in params then NotFound
    else if params[h].params.Some? then Loaded(batched)
    else match LoadParams(params, h)
      case Loaded(p) => Loaded(batched.(params := batched.params[h := ParamsInfo(h, p)]))
      case _ => NotFound
  }

  /** Height `k` is not yet in the batch. */
  ghost predicate SameEntries(db: Db, batched: Db, k: int) {
    && (k in db.vals <==> k in batched.vals) && (k in db.vals ==> batched.vals[k] == db.vals[k])
    && (k in db.params <==> k in batched.params) && (k in db.params ==> batched.params[k] == db.params[k])
    && (k in db.voterParams <==> k in batched.voterParams)
    && (k in db.voterParams ==> batched.voterParams[k] == db.voterParams[k])
    && (k in db.proofs <==> k in batched.proofs) && (k in db.proofs ==> batched.proofs[k] == db.proofs[k])
  }

  lemma SameAgain(a: Db, b: Db, c: Db, k: int)
    requires SameEntries(b, c, k)
    ensures SameEntries(a, b, k) ==> SameEntries(a, c, k)
  {
  }

  lemma SameTwice(a: Db, b: Db, c: Db, n: int)
    requires forall k | k <= n :: SameEntries(a, b, k) && SameEntries(b, c, k)
    ensures forall k | k <= n :: SameEntries(a, c, k)
  {
    hide SameEntries;
    forall k | k <= n ensures SameEntries(a, c, k) {
      SameAgain(a, b, c, k);
    }
  }

  lemma PrunedNothing(db: Db, to': int)
    requires to' in db.vals && to' in db.params
    ensures Pruned(db, db, to') && forall k :: SameEntries(db, db, k)
  {
  }

  lemma SweepValsOK(db0: Db, db: Db, batched: Db, to': int, h: int)
    requires Pruned(db0, db, to') && Pruned(db0, batched, to') && h < to'
    requires SweepVals(db.vals, batched, h, KeepVals(db0.vals, to')).Loaded?
    ensures Pruned(db0, SweepVals(db.vals, batched, h, KeepVals(db0.vals, to')).value, to')
  {
    hide LoadValidators;
  }

  lemma SweepParamsOK(db0: Db, db: Db, batched: Db, to': int, h: int)
    requires Pruned(db0, db, to') && Pruned(db0, batched, to') && h < to'
    requires SweepParams(db.params, batched, h, KeepParams(db0.params, to')).Loaded?
    ensures Pruned(db0, SweepParams(db.params, batched, h, KeepParams(db0.params, to')).value, to')
  {
    hide LoadParams;
  }

  /** The entries to be kept are there, in full. */
  ghost predicate SourcesPresent(db: Db, from: int, to': int) {
    && to' in db.vals && to' in db.params
    && (forall h | from <= h < to' && h in KeepVals(db.vals, to') :: h in db.vals && db.vals[h].stored.Some?)
    && (forall h | from <= h < to' && h in KeepParams(db.params, to') :: h in db.params && db.params[h].params.Some?)
  }

  /** They are when no height from `from` on was pruned before. */
  lemma SourcesThere(db: Db, hist: History, select: Selector, from: int, to': int)
    requires StoreOK(db, hist, select) && hist.lo <= from < to' <= NextHeight(db.state.value)
    ensures SourcesPresent(db, from, to')
  {
    assert ValEntryOK(db.vals, hist.members, to') && ParamEntryOK(db.params, hist.params, to');
    forall h | from <= h < to' && h in KeepVals(db.vals, to') ensures h in db.vals && db.vals[h].stored.Some? {
      assert ValEntryOK(db.vals, hist.members, h);
    }
    forall h | from <= h < to' && h in KeepParams(db.params, to') ensures h in db.params && db.params[h].params.Some? {
      assert ParamEntryOK(db.params, hist.params, h);
    }
  }

  lemma SweepGoesOn(db0: Db, db: Db, batched: Db, from: int, to': int, h: int)
    requires SourcesPresent(db0, from, to') && Pruned(db0, db, to') && from <= h < to'
    ensures SweepVals(db.vals, batched, h, KeepVals(db0.vals, to')).Loaded?
    ensures forall b :: SweepParams(db.params, b, h, KeepParams(db0.params, to')).Loaded?
  {
    hide LoadValidators, LoadParams;
  }

  /** A sweep settles its own height ... */
  lemma SweepSettles(db: Db, batched: Db, h: int, keepVals: set<int>, keepParams: set<int>)
    requires SweepVals(db.vals, batched, h, keepVals).Loaded? && SameEntries(db, batched, h)
    requires SweepParams(db.params, SweepVals(db.vals, batched, h, keepVals).value, h, keepParams).Loaded?
    ensures var swept := SweepParams(db.params, SweepVals(db.vals, batched, h, keepVals).value, h, keepParams).value;
      Swept(swept, keepVals, keepParams, h)
  {
    hide LoadValidators, LoadParams;
  }

  /** ... and no other. */
  lemma SweepSpares(db: Db, batched: Db, h: int, keepVals: set<int>, keepParams: set<int>, k: int)
    requires SweepVals(db.vals, batched, h, keepVals).Loaded? && k != h
    requires SweepParams(db.params, SweepVals(db.vals, batched, h, keepVals).value, h, keepParams).Loaded?
    ensures var swept := SweepParams(db.params, SweepVals(db.vals, batched, h, keepVals).value, h, keepParams).value;
      && SameEntries(batched, swept, k)
      && (Swept(batched, keepVals, keepParams, k) ==> Swept(swept, keepVals, keepParams, k))
  {
    hide LoadValidators, LoadParams;
  }

  lemma SweepFrame(db: Db, batched: Db, h: int, keepVals: set<int>, keepParams: set<int>)
    requires SweepVals(db.vals, batched, h, keepVals).Loaded? && SameEntries(db, batched, h)
    requires SweepParams(db.params, SweepVals(db.vals, batched, h, keepVals).value, h, keepParams).Loaded?
    ensures var swept := SweepParams(db.params, SweepVals(db.vals, batched, h, keepVals).value, h, keepParams).value;
      && Swept(swept, keepVals, keepParams, h)
      && (forall k | k != h && Swept(batched, keepVals, keepParams, k) :: Swept(swept, keepVals, keepParams, k))
      && (forall k | k != h && SameEntries(db, batched, k) :: SameEntries(db, swept, k))
  {
    hide SweepVals, SweepParams, Swept, SameEntries;
    var swept := SweepParams(db.params, SweepVals(db.vals, batched, h, keepVals).value, h, keepParams).value;
    SweepSettles(db, batched, h, keepVals, keepParams);
    forall k | k != h && Swept(batched, keepVals, keepParams, k) ensures Swept(swept, keepVals, keepParams, k) {
      SweepSpares(db, batched, h, keepVals, keepParams, k);
    }
    forall k | k != h && SameEntries(db, batched, k) ensures SameEntries(db, swept, k) {
      SweepSpares(db, batched, h, keepVals, keepParams, k);
      SameAgain(db, batched, swept, k);
    }
  }

  /** What a sweep keeps of its height loads directly as it loaded before, and what it does
      not keep is gone. It fails exactly if something to keep does not load. */
  lemma SweepLoads(db: Db, batched: Db, h: int, keep: set<int>)
    requires h in batched.vals <==> h in db.vals
    requires h in db.vals ==> batched.vals[h] == db.vals[h]
    requires h in db.params ==> h in batched.params && batched.params[h] == db.params[h]
    ensures var swept := SweepVals(db.vals, batched, h, keep);
      && (swept.Loaded? <==>
            h in keep ==> (h in db.vals && db.vals[h].stored.Some?) || LoadValidators(db.vals, h).Loaded?)
      && (swept.Loaded? ==> swept.value == batched.(vals := swept.value.vals, voterParams := swept.value.voterParams,
                                                    proofs := swept.value.proofs))
      && (swept.Loaded? && h in keep && h != 0 ==>
            && h in swept.value.vals && swept.value.vals[h].stored.Some?
            && LoadValidators(db.vals, h) == Loaded(swept.value.vals[h].stored.value))
      && (swept.Loaded? && h !in keep ==>
            h !in swept.value.vals && h !in swept.value.voterParams && h !in swept.value.proofs)
    ensures var swept := SweepParams(db.params, batched, h, keep);
      && (swept.Loaded? <==> h in keep ==> LoadParams(db.params, h).Loaded?)
      && (swept.Loaded? ==> swept.value == batched.(params := swept.value.params))
      && (swept.Loaded? && h in keep ==>
            && h in swept.value.params && LoadParams(swept.value.params, h) == LoadParams(db.params, h)
            && (swept.value.params[h].params.Some? || swept.value.params[h].lastHeightChanged == h))
      && (swept.Loaded? && h !in keep ==> h !in swept.value.params)
  {
  }

  class DBStore {
    const select: Selector
    var db: Db

    constructor(select: Selector)
      ensures this.select == select && db == Db(map[], map[], map[], map[], None)
    {
      this.select := select;
      db := Db(map[], map[], map[], map[], None);
    }

    method PutValidatorsInfo(height: int, lastHeightChanged: int, v: Validators) returns (ok: bool)
      modifies this
      ensures ok == (lastHeightChanged <= height)
      ensures db ==
        if ok then old(db).(vals := SaveValidatorsInfo(old(db).vals, height, lastHeightChanged, v)) else old(db)
    {
      if lastHeightChanged > height { return false; }
      var info := ValidatorsInfo(lastHeightChanged, None);
      if height == lastHeightChanged || height % CHECKPOINT_INTERVAL == 0 {
        info := info.(stored := Some(v));
      }
      db := db.(vals := db.vals[height := info]);
      ok := true;
    }

    method PutParamsInfo(height: int, changeHeight: int, params: Params)
      modifies this
      ensures db == old(db).(params := SaveParamsInfo(old(db).params, height, changeHeight, params))
    {
      var info := ParamsInfo(changeHeight, None);
      if changeHeight == height {
        info := info.(params := params);
      }
      db := db.(params := db.params[height := info]);
    }

    method Save(s: State) returns (ok: bool)
      modifies this
      ensures ok == (s.lastHeightValidatorsChanged <= NextHeight(s) + 1)
      ensures ok ==> db == SaveState(old(db), s)
      ensures db.state == if ok then Some(s) else old(db).state
    {
      var nextHeight := s.lastBlockHeight + 1;
      if nextHeight == 1 {
        nextHeight := s.initialHeight;
        ok := PutValidatorsInfo(nextHeight, nextHeight, s.validators);
      }
      ok := PutValidatorsInfo(nextHeight + 1, s.lastHeightValidatorsChanged, s.nextValidators);
      if !ok { return; }
      PutParamsInfo(nextHeight, s.lastHeightParamsChanged, s.consensusParams);
      db := db.(voterParams := db.voterParams[nextHeight := s.voterParams]);
      db := db.(proofs := db.proofs[nextHeight := s.lastProofHash]);
      db := db.(state := Some(s));
    }

    method Bootstrap(s: State)
      modifies this
      ensures db == BootState(old(db), s)
    {
      var height := s.lastBlockHeight + 1;
      if height == 1 {
        height := s.initialHeight;
      }
      var ok := PutValidatorsInfo(height, height, s.validators);
      ok := PutValidatorsInfo(height + 1, height + 1, s.nextValidators);
      PutParamsInfo(height, s.lastHeightParamsChanged, s.consensusParams);
      db := db.(voterParams := db.voterParams[height := s.voterParams]);
      db := db.(proofs := db.proofs[height := s.lastProofHash]);
      db := db.(state := Some(s));
    }

    /** Deletes heights `from` up to but not including `to'`, newest first, in batches of
        1000. The process dies when it has written `flushes` batches. */
    method PruneStates(from: int, to': int, flushes: nat) returns (outcome: PruneOutcome)
      modifies this
      ensures from <= 0 || to' <= 0 || from >= to' || to' !in old(db).vals || to' !in old(db).params ==>
        outcome == PruneError && db == old(db)
      ensures to' in old(db).vals && to' in old(db).params ==> Pruned(old(db), db, to')
      ensures outcome.PruneDone? ==> forall h | from <= h < to' ::
        Swept(db, KeepVals(old(db).vals, to'), KeepParams(old(db).params, to'), h)
      ensures 0 < from < to' && SourcesPresent(old(db), from, to') ==>
        outcome == if flushes > (to' - from) / 1000 then PruneDone else Stopped
      ensures outcome.Stopped? ==> forall h | to' - 1000 * flushes <= h < to' ::
        Swept(db, KeepVals(old(db).vals, to'), KeepParams(old(db).params, to'), h)
      ensures outcome.Stopped? ==> forall h | h < to' - 1000 * flushes :: SameEntries(old(db), db, h)
    {
      if from <= 0 || to' <= 0 || from >= to' || to' !in db.vals || to' !in db.params { return PruneError; }
      var keepVals, keepParams := KeepVals(db.vals, to'), KeepParams(db.params, to');
      var batched := db;
      var pruned, left, h := 0, flushes, to' - 1;
      hide Pruned, Swept, SameEntries, SweepVals, SweepParams, KeepVals, KeepParams, SourcesPresent;
      PrunedNothing(db, to');
      while h >= from
        invariant from - 1 <= h < to'
        invariant Pruned(old(db), db, to') && Pruned(old(db), batched, to')
        invariant forall k | h < k < to' :: Swept(batched, keepVals, keepParams, k)
        invariant forall k | k <= h :: SameEntries(db, batched, k)
        invariant pruned == to' - 1 - h && left == flushes - pruned / 1000
        invariant forall k | to' - 1000 * (flushes - left) <= k < to' :: Swept(db, keepVals, keepParams, k)
        invariant forall k | k < to' - 1000 * (flushes - left) :: SameEntries(old(db), db, k)
        invariant left == 0 ==> pruned / 1000 == flushes
      {
        if SourcesPresent(old(db), from, to') {
          SweepGoesOn(old(db), db, batched, from, to', h);
        }
        var next := SweepVals(db.vals, batched, h, keepVals);
        if !next.Loaded? { return if next.Panic? then PrunePanic else PruneError; }
        SweepValsOK(old(db), db, batched, to', h);
        var swept := SweepParams(db.params, next.value, h, keepParams);
        if !swept.Loaded? { return PruneError; }
        SweepParamsOK(old(db), db, next.value, to', h);
        SweepFrame(db, batched, h, keepVals, keepParams);
        batched := swept.value;
        pruned := pruned + 1;
        if pruned % 1000 == 0 {
          if left == 0 { return Stopped; }
          left := left - 1;
          SameTwice(old(db), db, batched, h - 1);
          db := batched;
          PrunedNothing(db, to');
        }
        h := h - 1;
      }
      if left == 0 { return Stopped; }
      db := batched;
      return PruneDone;
    }

    /** Loads what is needed of the height before, and puts the state together. */
    method LoadPrevious(bs: BlockStore, invalid: State) returns (s: Option<State>)
      ensures s == if Loadable(invalid, bs, db, select) then Some(Assembled(invalid, bs, db, select)) else None
    {
      hide LoadVoters, LoadParams;
      var rollbackHeight := invalid.lastBlockHeight - 1;
      if rollbackHeight !in bs.metas || invalid.lastBlockHeight !in bs.metas { return None; }
      var rollbackBlock, latestBlock := bs.metas[rollbackHeight], bs.metas[invalid.lastBlockHeight];
      var last := LoadVoters(db, rollbackHeight, None, select);
      if !last.Loaded? { return None; }
      var current := LoadVoters(db, rollbackHeight + 1, None, select);
      if !current.Loaded? { return None; }
      var params := LoadParams(db.params, rollbackHeight + 1);
      if !params.Loaded? { return None; }
      var valChangeHeight := invalid.lastHeightValidatorsChanged;
      if valChangeHeight > rollbackHeight {
        valChangeHeight := rollbackHeight + 1;
      }
      var paramsChangeHeight := invalid.lastHeightParamsChanged;
      if paramsChangeHeight > rollbackHeight {
        paramsChangeHeight := rollbackHeight + 1;
      }
      return Some(State(invalid.initialHeight, rollbackBlock.header.height, rollbackBlock.blockID,
        rollbackBlock.header.time, invalid.validators, current.value.0, current.value.1, last.value.1,
        current.value.2, current.value.3, valChangeHeight, params.value, paramsChangeHeight,
        latestBlock.header.lastResultsHash, latestBlock.header.appHash));
    }

    /** Rollback of the state from height n to n - 1. After one block was applied to
        `before`, it restores the state, and the validators of height n + 1 still load
        exactly when RollbackKeeps. */
    method Rollback(bs: BlockStore, ghost before: Db, ghost hist: History, ghost e: Event)
      returns (outcome: RollbackOutcome)
      modifies this
      ensures old(db).state.None? ==> outcome.RollbackError? && db == old(db)
      ensures old(db).state.Some? && bs.height == old(db).state.value.lastBlockHeight + 1 ==>
        db == old(db) && outcome == RolledBack(old(db).state.value.lastBlockHeight, old(db).state.value.appHash)
      ensures old(db).state.Some? && bs.height - old(db).state.value.lastBlockHeight !in {0, 1} ==>
        outcome.RollbackError? && db == old(db)
      ensures old(db).state.Some? && Advanced(before, hist, e, old(db), select) && Stores(bs, before.state.value) ==>
        && outcome == RolledBack(before.state.value.lastBlockHeight, before.state.value.appHash)
        && db.state.Some? && Restored(db.state.value, before.state.value)
        && ChangeHeights(db.state.value, before.state.value, e.responses)
        && RollbackEffect(Record(hist, e.header, e.responses, select), old(db), db)
    {
      if db.state.None? { return RollbackError; }
      var invalid := db.state.value;
      if bs.height == invalid.lastBlockHeight + 1 { return RolledBack(invalid.lastBlockHeight, invalid.appHash); }
      if bs.height != invalid.lastBlockHeight { return RollbackError; }

      hide StoreOK, Step, Restored, LoadsPrevious, Stores, Loadable, Assembled, Advanced, RollbackEffect, ChangeHeights;
      var s := LoadPrevious(bs, invalid);
      if Advanced(before, hist, e, db, select) && Stores(bs, before.state.value) {
        RollbackLoads(before, hist, e, db, select);
        AssembledRestores(before.state.value, invalid, bs, db, select);
        RolledBackStore(before, hist, e, db, select, s.value);
      }
      if s.None? { return RollbackError; }
      var ok := Save(s.value);
      if !ok { return RollbackError; }
      return RolledBack(s.value.lastBlockHeight, s.value.appHash);
    }
  }
}
