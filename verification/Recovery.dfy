/** Crash recovery. A block passes through four durable writes that are not atomic: the
    block store, the ABCI responses, the application's commit and the state. A process may
    die before any of them, also while it recovers; the handshake must repair the rest. */
module Recovery {

  datatype Block = Block(height: int, txs: seq<int>, appHash: int)

  datatype Responses = Responses(deliverTxs: seq<int>, endBlock: int)

  /** The state as far as recovery is concerned: its height, the application hash, and
      `rest` for everything else that a block updates. */
  datatype State = State(lastBlockHeight: int, appHash: int, rest: int)

  /** A deterministic application and the blocks that were decided. Values of the
      application and hashes are codes; the empty hash is 0. */
  datatype Chain = Chain(
    initialHeight: int,
    block: int -> Block,
    appInit: int,
    appInitHash: int,                    // what InitChain returns
    appBegin: (int, Block) -> int,       // BeginBlock
    appTx: (int, int) -> int,            // DeliverTx: the next value ...
    txResult: (int, int) -> int,         // ... and the answer
    appEnd: (int, Block) -> int,         // EndBlock: the next value ...
    endResult: (int, Block) -> int,      // ... and the answer
    appHash: int -> int,
    initRest: int -> int,                // what InitChain changes in the rest of the state
    genesis: State,
    updateRest: (State, Block, Responses) -> int)

  /** The application after some transactions. */
  function AfterTxs(chain: Chain, app: int, txs: seq<int>): int {
    if txs == [] then app
    else chain.appTx(AfterTxs(chain, app, txs[..|txs| - 1]), txs[|txs| - 1])
  }

  /** Its answers to them, each given after the transactions before. */
  function TxResults(chain: Chain, app: int, txs: seq<int>): (r: seq<int>)
    ensures |r| == |txs|
  {
    if txs == [] then []
    else
      var before := txs[..|txs| - 1];
      TxResults(chain, app, before) + [chain.txResult(AfterTxs(chain, app, before), txs[|txs| - 1])]
  }

  /** The application after a block. */
  function AppExec(chain: Chain, app: int, b: Block): int {
    chain.appEnd(AfterTxs(chain, chain.appBegin(app, b), b.txs), b)
  }

  /** What the application answers to a block. */
  function Respond(chain: Chain, app: int, b: Block): Responses {
    var begun := chain.appBegin(app, b);
    Responses(TxResults(chain, begun, b.txs), chain.endResult(AfterTxs(chain, begun, b.txs), b))
  }

  /** The values an application passes through in a block: after BeginBlock, and after each
      transaction. */
  ghost predicate Passes(chain: Chain, app: int, b: Block, apps: seq<int>) {
    && |apps| == |b.txs| + 1 && apps[0] == chain.appBegin(app, b)
    && forall k | 0 <= k < |b.txs| :: apps[k + 1] == chain.appTx(apps[k], b.txs[k])
  }

  /** Each transaction is answered by the application as the earlier ones left it, and the
      end of the block by the application as all of them left it. */
  ghost predicate Answers(chain: Chain, b: Block, apps: seq<int>, r: Responses) {
    && |apps| == |b.txs| + 1 == |r.deliverTxs| + 1
    && (forall k | 0 <= k < |b.txs| :: r.deliverTxs[k] == chain.txResult(apps[k], b.txs[k]))
    && r.endBlock == chain.endResult(apps[|b.txs|], b)
  }

  /** A block takes the application from one value to another, with these answers. */
  ghost predicate Executes(chain: Chain, app: int, b: Block, app': int, r: Responses) {
    exists apps :: Passes(chain, app, b, apps) && Answers(chain, b, apps, r) && app' == chain.appEnd(apps[|b.txs|], b)
  }

  lemma {:induction false} PassesThrough(chain: Chain, app: int, b: Block, apps: seq<int>, n: nat)
    requires Passes(chain, app, b, apps) && n <= |b.txs|
    ensures apps[n] == AfterTxs(chain, chain.appBegin(app, b), b.txs[..n])
    ensures forall k | 0 <= k < n ::
      TxResults(chain, chain.appBegin(app, b), b.txs[..n])[k] == chain.txResult(apps[k], b.txs[k])
  {
    if n > 0 {
      PassesThrough(chain, app, b, apps, n - 1);
      assert b.txs[..n][..n - 1] == b.txs[..n - 1];
    }
  }

  /** There is exactly one way through a block. */
  lemma ExecutesOnce(chain: Chain, app: int, b: Block, app': int, r: Responses)
    ensures Executes(chain, app, b, app', r) <==> app' == AppExec(chain, app, b) && r == Respond(chain, app, b)
  {
    var begun := chain.appBegin(app, b);
    assert b.txs[..|b.txs|] == b.txs;
    if Executes(chain, app, b, app', r) {
      var apps :| Passes(chain, app, b, apps) && Answers(chain, b, apps, r) && app' == chain.appEnd(apps[|b.txs|], b);
      PassesThrough(chain, app, b, apps, |b.txs|);
      assert r.deliverTxs == TxResults(chain, begun, b.txs);
    }
    var apps := seq(|b.txs| + 1, k requires 0 <= k <= |b.txs| => AfterTxs(chain, begun, b.txs[..k]));
    assert b.txs[..0] == [];
    forall k | 0 <= k < |b.txs| ensures apps[k + 1] == chain.appTx(apps[k], b.txs[k]) {
      assert b.txs[..k + 1][..k] == b.txs[..k];
    }
    PassesThrough(chain, app, b, apps, |b.txs|);
    assert Answers(chain, b, apps, Respond(chain, app, b));
  }

  lemma AnswersEach(chain: Chain, app: int, b: Block)
    ensures |Respond(chain, app, b).deliverTxs| == |b.txs|
  {
  }

  /** The state of height 0 after InitChain: an empty hash leaves the one of the genesis
      file. */
  function InitState(chain: Chain, s: State): State {
    State(s.lastBlockHeight, if chain.appInitHash != 0 then chain.appInitHash else s.appHash,
          chain.initRest(s.rest))
  }

  function NextHeight(chain: Chain, h: int): int {
    if h == 0 then chain.initialHeight else h + 1
  }

  /** The height so many blocks on. */
  function Further(chain: Chain, h: int, blocks: nat): int {
    if blocks == 0 then h else NextHeight(chain, Further(chain, h, blocks - 1))
  }

  function UpdateState(chain: Chain, s: State, b: Block, r: Responses, appHash: int): State {
    State(b.height, appHash, chain.updateRest(s, b, r))
  }

  // ----------------------------------------------------- the uninterrupted run

  /** The application after block `h`. */
  ghost function AppAt(chain: Chain, h: int): int
    decreases h - chain.initialHeight
  {
    if h < chain.initialHeight then chain.appInit
    else AppExec(chain, AppAt(chain, h - 1), chain.block(h))
  }

  /** The state after block `h`. */
  ghost function StateAt(chain: Chain, h: int): State
    decreases h - chain.initialHeight
  {
    if h < chain.initialHeight then InitState(chain, chain.genesis)
    else
      UpdateState(chain, StateAt(chain, h - 1), chain.block(h),
                  Respond(chain, AppAt(chain, h - 1), chain.block(h)), chain.appHash(AppAt(chain, h)))
  }

  /** Block `h` has its height and the application hash that validation demands. */
  ghost predicate BlockFits(chain: Chain, h: int) {
    chain.block(h).height == h && chain.block(h).appHash == StateAt(chain, h - 1).appHash
  }

  /** The blocks fit the run, and repeating InitChain changes nothing. */
  ghost predicate ChainOK(chain: Chain) {
    && chain.initialHeight >= 1
    && (forall h | h >= chain.initialHeight :: BlockFits(chain, h))
    && chain.genesis.lastBlockHeight == 0
    && chain.initRest(chain.initRest(chain.genesis.rest)) == chain.initRest(chain.genesis.rest)
  }

  /** InitChain returns a hash, or the genesis file has none either. */
  predicate HashAgrees(chain: Chain) {
    chain.appInitHash != 0 || chain.genesis.appHash == 0
  }

  /** Heights at which something can stand: nothing yet, or a block. */
  predicate Position(chain: Chain, h: int) {
    h == 0 || h >= chain.initialHeight
  }

  lemma StateAtHeight(chain: Chain, h: int)
    requires ChainOK(chain) && Position(chain, h)
    ensures StateAt(chain, h).lastBlockHeight == h
    ensures h > 0 ==> StateAt(chain, h).appHash == chain.appHash(AppAt(chain, h))
    ensures h > 0 ==> BlockFits(chain, h)
    ensures BlockFits(chain, NextHeight(chain, h)) && StateAt(chain, NextHeight(chain, h) - 1) == StateAt(chain, h)
    ensures AppAt(chain, NextHeight(chain, h) - 1) == AppAt(chain, h)
    ensures AppAt(chain, NextHeight(chain, h)) ==
            AppExec(chain, AppAt(chain, h), chain.block(NextHeight(chain, h)))
    ensures StateAt(chain, NextHeight(chain, h)) ==
            var b := chain.block(NextHeight(chain, h));
            UpdateState(chain, StateAt(chain, h), b, Respond(chain, AppAt(chain, h), b),
                        chain.appHash(AppAt(chain, b.height)))
  {
    if h > 0 {
      assert BlockFits(chain, h);
    } else {
      BelowFirst(chain, chain.initialHeight - 1);
      BelowFirst(chain, 0);
    }
    assert BlockFits(chain, NextHeight(chain, h));
  }

  lemma BelowFirst(chain: Chain, h: int)
    requires h < chain.initialHeight
    ensures AppAt(chain, h) == chain.appInit && StateAt(chain, h) == InitState(chain, chain.genesis)
  {
  }

  /** Block `h`, with the answers `r`, leads on from the application and state before it. */
  ghost predicate OneBlockOn(chain: Chain, h: int, r: Responses) {
    && Executes(chain, AppAt(chain, h - 1), chain.block(h), AppAt(chain, h), r)
    && StateAt(chain, h).lastBlockHeight == chain.block(h).height
    && StateAt(chain, h).appHash == chain.appHash(AppAt(chain, h))
    && StateAt(chain, h).rest == chain.updateRest(StateAt(chain, h - 1), chain.block(h), r)
  }

  /** The uninterrupted run, step by step. InitChain gives the first application, and the
      first state its hash, if it returns one. Every block is executed by the application as
      the one before left it; the state after it has its height, the application's hash, and
      what the block and its answers make of the rest. */
  lemma UninterruptedRun(chain: Chain, h: int)
    ensures h < chain.initialHeight ==>
      && AppAt(chain, h) == chain.appInit
      && StateAt(chain, h).lastBlockHeight == chain.genesis.lastBlockHeight
      && StateAt(chain, h).rest == chain.initRest(chain.genesis.rest)
      && (chain.appInitHash != 0 ==> StateAt(chain, h).appHash == chain.appInitHash)
      && (chain.appInitHash == 0 ==> StateAt(chain, h).appHash == chain.genesis.appHash)
    ensures h >= chain.initialHeight ==> exists r :: OneBlockOn(chain, h, r)
  {
    if h >= chain.initialHeight {
      var r := Respond(chain, AppAt(chain, h - 1), chain.block(h));
      ExecutesOnce(chain, AppAt(chain, h - 1), chain.block(h), AppAt(chain, h), r);
      assert OneBlockOn(chain, h, r);
    }
  }

  // ------------------------------------------------------- what the handshake does

  datatype Plan =
    | NothingStored | AppTooLow | AppTooHigh | StateAheadOfStore | StoreTooFarAhead
    | ReplayToApp | AllSynced | ReplayThenApply | ApplyWithApp | ApplyWithMock | Uncovered

  /** The case distinction of ReplayBlocks. */
  function Decide(initialHeight: int, base: int, store: int, state: int, app: int): Plan {
    if store == 0 then NothingStored
    else if app == 0 && initialHeight < base then AppTooLow
    else if app > 0 && app < base - 1 then AppTooLow
    else if store < app then AppTooHigh
    else if store < state then StateAheadOfStore
    else if store > state + 1 then StoreTooFarAhead
    else if store == state then
      if app < store then ReplayToApp else if app == store then AllSynced else Uncovered
    else if store == state + 1 then
      if app < state then ReplayThenApply
      else if app == state then ApplyWithApp
      else if app == store then ApplyWithMock
      else Uncovered
    else Uncovered
  }

  /** Exactly when the handshake follows each plan, whatever the heights. Nothing stored is
      looked at first, then an application out of the range of the store, then a state that
      the store does not fit; after that the application is behind, level with the state, or
      level with the store. */
  lemma PlanFollows(initialHeight: int, base: int, store: int, state: int, app: int)
    ensures var plan := Decide(initialHeight, base, store, state, app);
      var tooLow := if app == 0 then initialHeight < base else 0 < app && app + 1 < base;
      var inRange := store != 0 && !tooLow && app <= store;
      var fits := inRange && state <= store <= state + 1;
      && (plan == NothingStored <==> store == 0)
      && (plan == AppTooLow <==> store != 0 && tooLow)
      && (plan == AppTooHigh <==> store != 0 && !tooLow && store < app)
      && (plan == StateAheadOfStore <==> inRange && store < state)
      && (plan == StoreTooFarAhead <==> inRange && state + 1 < store)
      && (plan == ReplayToApp <==> fits && state == store && app < store)
      && (plan == AllSynced <==> fits && state == store == app)
      && (plan == ReplayThenApply <==> fits && state + 1 == store && app < state)
      && (plan == ApplyWithApp <==> fits && state + 1 == store && app == state)
      && (plan == ApplyWithMock <==> fits && state + 1 == store == app)
      && plan != Uncovered
  {
  }

  predicate Panics(p: Plan) {
    p in {StateAheadOfStore, StoreTooFarAhead, Uncovered}
  }

  /** The heights a crash can leave behind: the store is level with the state or holds
      the next block, and the application is somewhere in the store's range. */
  predicate CrashHeights(chain: Chain, base: int, store: int, state: int, app: int) {
    && Position(chain, store) && Position(chain, state) && Position(chain, app)
    && (store == state || store == NextHeight(chain, state))
    && app <= store
    && (if store == 0 then base == chain.initialHeight else chain.initialHeight <= base <= store)
    && (store > 0 ==> if app == 0 then base == chain.initialHeight else base - 1 <= app)
  }

  /** After a crash the handshake panics in exactly one situation: the chain starts above
      height 1 and the process died between storing its first block and saving the state. */
  lemma HandshakeCovers(chain: Chain, base: int, store: int, state: int, app: int)
    requires chain.initialHeight >= 1 && CrashHeights(chain, base, store, state, app)
    ensures
      var p := Decide(chain.initialHeight, base, store, state, app);
      && (Panics(p) <==> chain.initialHeight > 1 && state == 0 && store == chain.initialHeight)
      && p != AppTooLow && p != AppTooHigh && p != Uncovered && p != StateAheadOfStore
  {
  }

  // ------------------------------------------------------------------ the mock app

  /** mockProxyApp: answers a block from saved responses, because the application has
      committed it already. */
  class MockProxyApp {
    const appHash: int
    const abciResponses: Responses
    var txCount: nat

    constructor (appHash: int, abciResponses: Responses)
      ensures this.appHash == appHash && this.abciResponses == abciResponses && txCount == 0
    {
      this.appHash, this.abciResponses, txCount := appHash, abciResponses, 0;
    }

    method DeliverTx() returns (r: int)
      requires txCount < |abciResponses.deliverTxs|
      modifies this
      ensures r == abciResponses.deliverTxs[old(txCount)] && txCount == old(txCount) + 1
    {
      r := abciResponses.deliverTxs[txCount];
      txCount := txCount + 1;
    }

    method EndBlock() returns (r: int)
      modifies this
      ensures r == abciResponses.endBlock && txCount == 0
    {
      txCount := 0;
      r := abciResponses.endBlock;
    }

    /** Running a block against the mock gives back the saved responses. */
    method ExecBlock(b: Block) returns (r: Responses)
      requires txCount == 0 && |b.txs| == |abciResponses.deliverTxs|
      modifies this
      ensures r == abciResponses && txCount == 0
    {
      var results: seq<int> := [];
      while |results| < |b.txs|
        invariant txCount == |results| <= |b.txs|
        invariant results == abciResponses.deliverTxs[..txCount]
      {
        var tx := DeliverTx();
        results := results + [tx];
      }
      var e := EndBlock();
      r := Responses(results, e);
    }
  }

  // ---------------------------------------------------------------- the durable node

  datatype Outcome = Done(appHash: int) | Crashed | Failed | Panicked

  datatype Conn = RealApp | MockApp

  /** The durable writes of ApplyBlock: the responses, the commit of a real application, and
      the state. */
  function Writes(conn: Conn): nat {
    if conn.RealApp? then 3 else 2
  }

  class Node {
    const chain: Chain
    const base: int
    var blocks: map<int, Block>          // block store
    var storeHeight: int
    var responses: map<int, Responses>   // saved ABCI responses
    var appHeight: int                   // the application's own storage
    var appValue: int
    var working: int                     // what the block being executed has made of it
    var state: State                     // saved state
    var fuel: nat                        // durable writes until the process dies

    constructor (chain: Chain)
      requires ChainOK(chain)
      ensures this.chain == chain && Durable() && storeHeight == 0 && appHeight == 0
    {
      this.chain, base := chain, chain.initialHeight;
      blocks, storeHeight, responses := map[], 0, map[];
      appHeight, appValue, working := 0, chain.appInit, chain.appInit;
      state, fuel := chain.genesis, 0;
    }

    ghost predicate StoreOK()
      reads this
    {
      && (forall h :: h in blocks <==> storeHeight > 0 && base <= h <= storeHeight)
      && (forall h | h in blocks :: blocks[h] == chain.block(h))
    }

    /** What every crash leaves intact. */
    ghost predicate Durable()
      reads this
    {
      && ChainOK(chain)
      && CrashHeights(chain, base, storeHeight, state.lastBlockHeight, appHeight)
      && StoreOK()
      && (appHeight > 0 ==> appValue == AppAt(chain, appHeight))
      && (state == StateAt(chain, state.lastBlockHeight)
          || (state.lastBlockHeight == 0 && storeHeight == 0 && appHeight == 0
              && state == chain.genesis))
      // the application committed a block the state does not have yet: its answers are on disk
      && (appHeight > state.lastBlockHeight ==>
            appHeight in responses
            && responses[appHeight] == Respond(chain, AppAt(chain, appHeight - 1), chain.block(appHeight)))
    }

    /** Store, state and application are level and as in an uninterrupted run. */
    ghost predicate Synced()
      reads this
    {
      && Durable()
      && state.lastBlockHeight == storeHeight == appHeight
      && state == StateAt(chain, storeHeight)
      && appValue == AppAt(chain, appHeight)
    }

    /** The handshake can deal with the heights (see HandshakeCovers), and on an empty
        store with the first hash. */
    predicate Recoverable()
      reads this
    {
      if storeHeight == 0 then HashAgrees(chain)
      else chain.initialHeight == 1 || state.lastBlockHeight > 0
    }

    // ------------------------------------------------------------- durable writes

    method LoadBlock(h: int) returns (b: Block)
      requires h in blocks
      ensures b == blocks[h]
    {
      b := blocks[h];
    }

    /** False if the process died instead of writing. */
    method Alive() returns (ok: bool)
      modifies this`fuel
      ensures ok == (old(fuel) > 0) && fuel == if ok then old(fuel) - 1 else 0
    {
      ok := fuel > 0;
      if ok {
        fuel := fuel - 1;
      }
    }

    method SaveBlock(b: Block) returns (ok: bool)
      requires Synced() && b == chain.block(NextHeight(chain, storeHeight))
      modifies this`blocks, this`storeHeight, this`fuel
      ensures Durable() && (ok == (old(fuel) > 0))
      ensures ok ==> storeHeight == b.height == NextHeight(chain, state.lastBlockHeight)
      ensures !ok ==> Synced() && storeHeight == old(storeHeight) && fuel == 0
      ensures ok ==> fuel == old(fuel) - 1
    {
      hide AppAt, StateAt, Respond;
      StateAtHeight(chain, storeHeight);
      ok := Alive();
      if ok {
        blocks := blocks[b.height := b];
        storeHeight := b.height;
      }
    }

    /** BeginBlock, the transactions one by one, EndBlock. Nothing is durable yet. */
    method Deliver(b: Block) returns (r: Responses)
      modifies this`working
      ensures Executes(chain, appValue, b, working, r)
    {
      working := chain.appBegin(appValue, b);
      var results: seq<int> := [];
      ghost var apps := [working];
      while |results| < |b.txs|
        invariant |results| <= |b.txs| && |apps| == |results| + 1 && apps[|results|] == working
        invariant apps[0] == chain.appBegin(appValue, b)
        invariant forall k | 0 <= k < |results| :: apps[k + 1] == chain.appTx(apps[k], b.txs[k])
        invariant forall k | 0 <= k < |results| :: results[k] == chain.txResult(apps[k], b.txs[k])
      {
        var tx := b.txs[|results|];
        results := results + [chain.txResult(working, tx)];
        working := chain.appTx(working, tx);
        apps := apps + [working];
      }
      r := Responses(results, chain.endResult(working, b));
      assert Passes(chain, appValue, b, apps) && Answers(chain, b, apps, r);
      working := chain.appEnd(working, b);
    }

    /** The application makes durable what the block has made of it. */
    method AppCommit(b: Block, ghost r: Responses) returns (ok: bool, appHash: int)
      requires Durable() && b == chain.block(NextHeight(chain, appHeight)) && b.height <= storeHeight
      requires state == StateAt(chain, state.lastBlockHeight)
      requires Executes(chain, appValue, b, working, r)
      requires b.height > state.lastBlockHeight ==> b.height in responses && responses[b.height] == r
      requires appHeight == 0 ==> appValue == chain.appInit
      modifies this`appHeight, this`appValue, this`fuel
      ensures Durable()
      ensures ok ==> appHeight == b.height && appValue == working && appHash == chain.appHash(AppAt(chain, b.height))
      ensures ok ==> Executes(chain, old(appValue), b, appValue, r)
      ensures !ok ==> appHeight == old(appHeight) && appValue == old(appValue) && fuel == 0
      ensures ok == (old(fuel) > 0) && (ok ==> fuel == old(fuel) - 1)
    {
      hide AppAt, StateAt, Respond, AppExec, Executes;
      BelowFirst(chain, 0);
      StateAtHeight(chain, appHeight);
      ExecutesOnce(chain, appValue, b, working, r);
      appHash := 0;
      ok := Alive();
      if ok {
        appValue := working;
        appHeight := b.height;
        appHash := chain.appHash(appValue);
      }
    }

    /** ExecCommitBlock: the real application executes and commits the next block. */
    method ExecCommitBlock(b: Block) returns (ok: bool, appHash: int)
      requires Durable() && b == chain.block(NextHeight(chain, appHeight)) && b.height <= storeHeight
      requires state == StateAt(chain, state.lastBlockHeight) && b.height <= state.lastBlockHeight
      requires appHeight == 0 ==> appValue == chain.appInit
      modifies this`working, this`appHeight, this`appValue, this`fuel
      ensures Durable()
      ensures ok ==> appHeight == b.height && appHash == chain.appHash(AppAt(chain, b.height))
      ensures !ok ==> appHeight == old(appHeight) && appValue == old(appValue) && fuel == 0
      ensures ok == (old(fuel) > 0) && (ok ==> fuel == old(fuel) - 1)
    {
      hide AppAt, StateAt, Respond, Executes;
      var r := Deliver(b);
      ok, appHash := AppCommit(b, r);
    }

    /** execBlockOnProxyApp: the answers are those of the application, whether it gives
        them now or gave them before it committed. */
    method ExecBlock(b: Block, conn: Conn) returns (r: Responses)
      requires Durable() && storeHeight == NextHeight(chain, state.lastBlockHeight) && b == chain.block(storeHeight)
      requires if conn.RealApp? then appHeight == state.lastBlockHeight else appHeight == storeHeight
      requires appHeight == 0 ==> appValue == chain.appInit
      modifies this`working
      ensures Durable() && Executes(chain, AppAt(chain, storeHeight - 1), b, AppAt(chain, storeHeight), r)
      ensures conn.RealApp? ==> Executes(chain, appValue, b, working, r)
    {
      hide AppAt, StateAt, Executes, Respond, AppExec;
      StateAtHeight(chain, state.lastBlockHeight);
      BelowFirst(chain, 0);
      if conn.RealApp? {
        r := Deliver(b);
        ExecutesOnce(chain, appValue, b, working, r);
      } else {
        AnswersEach(chain, AppAt(chain, storeHeight - 1), b);
        var mock := new MockProxyApp(chain.appHash(appValue), responses[storeHeight]);
        r := mock.ExecBlock(b);
      }
      ExecutesOnce(chain, AppAt(chain, storeHeight - 1), b, AppAt(chain, storeHeight), r);
    }

    method SaveResponses(h: int, r: Responses) returns (ok: bool)
      requires Durable() && Executes(chain, AppAt(chain, h - 1), chain.block(h), AppAt(chain, h), r)
      modifies this`responses, this`fuel
      ensures Durable()
      ensures responses == if ok then old(responses)[h := r] else old(responses)
      ensures !ok ==> fuel == 0
      ensures ok == (old(fuel) > 0) && (ok ==> fuel == old(fuel) - 1)
    {
      hide AppAt, StateAt, Respond, Executes, AppExec;
      ExecutesOnce(chain, AppAt(chain, h - 1), chain.block(h), AppAt(chain, h), r);
      ok := Alive();
      if ok {
        responses := responses[h := r];
      }
    }

    /** ApplyBlock for the block after the state, which the store holds already: at most
        three durable writes. */
    method ApplyBlock(b: Block, conn: Conn) returns (o: Outcome)
      requires Durable() && state == StateAt(chain, state.lastBlockHeight)
      requires storeHeight == NextHeight(chain, state.lastBlockHeight) && b == chain.block(storeHeight)
      requires if conn.RealApp? then appHeight == state.lastBlockHeight else appHeight == storeHeight
      requires appHeight == 0 ==> appValue == chain.appInit
      modifies this`responses, this`working, this`appHeight, this`appValue, this`state, this`fuel
      ensures Durable() && state == StateAt(chain, state.lastBlockHeight)
      ensures state.lastBlockHeight >= old(state.lastBlockHeight)
      ensures (o.Done? || o.Crashed?) && (o.Crashed? ==> fuel == 0)
      ensures o.Done? ==> Synced() && o.appHash == state.appHash
      ensures o.Done? <==> old(fuel) >= Writes(conn)
      ensures o.Done? ==> fuel == old(fuel) - Writes(conn)
      ensures o.Crashed? ==>
        && state == old(state)
        && appHeight == if conn.RealApp? && old(fuel) == 2 then storeHeight else old(appHeight)
    {
      hide AppAt, StateAt, Respond, Executes, AppExec;
      StateAtHeight(chain, state.lastBlockHeight);
      // validateBlock
      if b.height != NextHeight(chain, state.lastBlockHeight) || b.appHash != state.appHash {
        assert false;
        o := Failed;
        return;
      }
      var r := ExecBlock(b, conn);
      ExecutesOnce(chain, AppAt(chain, storeHeight - 1), b, AppAt(chain, storeHeight), r);
      var alive := SaveResponses(b.height, r);
      if !alive {
        o := Crashed;
        return;
      }
      var appHash := chain.appHash(appValue);
      if conn.RealApp? {
        alive, appHash := AppCommit(b, r);
        if !alive {
          o := Crashed;
          return;
        }
      }
      alive := Alive();
      if !alive {
        o := Crashed;
        return;
      }
      state := UpdateState(chain, state, b, r, appHash);
      StateAtHeight(chain, state.lastBlockHeight);
      o := Done(appHash);
    }

    /** finalizeCommit: normal operation, one block further. */
    method FinalizeCommit() returns (o: Outcome)
      requires Synced()
      modifies this
      ensures Durable() && (o.Done? || o.Crashed?) && (o.Crashed? ==> fuel == 0)
      ensures o.Done? ==> Synced() && storeHeight == NextHeight(chain, old(storeHeight))
      ensures o.Done? <==> old(fuel) >= 4
      ensures o.Done? ==> fuel == old(fuel) - 4
      ensures o.Crashed? ==>
        && state == old(state)
        && storeHeight == (if old(fuel) == 0 then old(storeHeight) else NextHeight(chain, old(storeHeight)))
        && appHeight == if old(fuel) == 3 then storeHeight else old(appHeight)
    {
      hide AppAt, StateAt, Respond;
      BelowFirst(chain, 0);
      var b := chain.block(NextHeight(chain, storeHeight));
      var ok := SaveBlock(b);
      if !ok {
        o := Crashed;
        return;
      }
      o := ApplyBlock(b, RealApp);
    }

    // ---------------------------------------------------------------- the handshake

    /** InitChain, and the genesis state it may change. */
    method InitChain() returns (o: Outcome)
      requires Durable() && appHeight == 0
      modifies this`appValue, this`state, this`fuel
      ensures Durable() && appValue == chain.appInit && state.lastBlockHeight == old(state.lastBlockHeight)
      ensures (o.Done? || o.Crashed?) && (o.Crashed? ==> fuel == 0)
      ensures o.Done? ==> state == StateAt(chain, state.lastBlockHeight) && o.appHash == chain.appInitHash
      ensures o.Crashed? <==> old(fuel) == 0 && old(state).lastBlockHeight == 0
      ensures o.Crashed? || old(state).lastBlockHeight > 0 ==> state == old(state) && fuel == old(fuel)
      ensures o.Done? && old(state).lastBlockHeight == 0 ==> fuel == old(fuel) - 1
    {
      hide AppAt, Respond;
      appValue := chain.appInit;
      BelowFirst(chain, 0);
      if state.lastBlockHeight == 0 {
        var alive := Alive();
        if !alive {
          o := Crashed;
          return;
        }
        state := InitState(chain, state);
      }
      o := Done(chain.appInitHash);
    }

    /** Replays blocks to an application that is behind, one durable write each; with
        `mutateState` the last one goes through ApplyBlock. */
    method ReplayBlockRange(mutateState: bool) returns (o: Outcome)
      requires Durable() && state == StateAt(chain, state.lastBlockHeight) && storeHeight > 0
      requires appHeight == 0 ==> appValue == chain.appInit
      requires storeHeight == if mutateState then state.lastBlockHeight + 1 else state.lastBlockHeight
      requires if mutateState then appHeight < state.lastBlockHeight else appHeight < storeHeight
      modifies this`responses, this`working, this`appHeight, this`appValue, this`state, this`fuel
      ensures Durable() && (o.Done? || o.Crashed?) && (o.Crashed? ==> fuel == 0)
      ensures state.lastBlockHeight >= old(state.lastBlockHeight)
      ensures o.Done? ==> Synced() && o.appHash == state.appHash
      ensures o.Crashed? ==> old(fuel) < storeHeight - old(appHeight) + 3
      ensures o.Done? ==> fuel >= old(fuel) - (storeHeight - old(appHeight) + 3)
      ensures fuel <= old(fuel) && (old(fuel) == 0 ==> appHeight == old(appHeight) && state == old(state))
    {
      hide AppAt, StateAt, Respond;
      var appHash := 0;
      var finalBlock := if mutateState then storeHeight - 1 else storeHeight;
      var i := NextHeight(chain, appHeight);
      StateAtHeight(chain, state.lastBlockHeight);
      while i <= finalBlock
        invariant Durable() && state == old(state)
        invariant i == NextHeight(chain, appHeight) && i <= finalBlock + 1
        invariant appHeight == 0 ==> appValue == chain.appInit
        invariant appHeight == old(appHeight) ==> appHash == 0 && i <= finalBlock
        invariant fuel + appHeight >= old(fuel) + old(appHeight) && appHeight >= old(appHeight)
        invariant fuel <= old(fuel) && (old(fuel) == 0 ==> appHeight == old(appHeight))
        invariant appHeight != old(appHeight) ==>
          appHeight > 0 && appHash == chain.appHash(AppAt(chain, appHeight))
        decreases finalBlock - i
      {
        StateAtHeight(chain, appHeight);
        var block := LoadBlock(i);
        if appHash != 0 && appHash != block.appHash {
          assert false;
          o := Panicked;
          return;
        }
        var alive;
        alive, appHash := ExecCommitBlock(block);
        if !alive {
          o := Crashed;
          return;
        }
        i := i + 1;
      }
      if mutateState {
        var b := LoadBlock(storeHeight);
        o := ApplyBlock(b, RealApp);
        if o.Crashed? {
          return;
        }
        appHash := o.appHash;
      }
      o := if appHash == state.appHash then Done(appHash) else Panicked;
    }

    /** ReplayBlocks: whatever a crash left, the handshake ends with everything level if
        the process lives long enough. Given one durable write, it panics if and only if what
        it found is not recoverable. */
    method ReplayBlocks() returns (o: Outcome)
      requires Durable()
      modifies this`responses, this`working, this`appHeight, this`appValue, this`state, this`fuel
      ensures Durable() && !o.Failed?
      ensures old(Recoverable()) ==> Recoverable() && !o.Panicked?
      ensures !old(Recoverable()) ==> !Recoverable() && !o.Done?
      ensures !old(Recoverable()) && old(fuel) > 0 ==> o.Panicked?
      ensures o.Done? ==> Synced()
      ensures o.Crashed? ==> fuel == 0 && old(fuel) < storeHeight - old(appHeight) + 4
      ensures o.Done? ==> fuel >= old(fuel) - (storeHeight - old(appHeight) + 4)
      ensures fuel <= old(fuel) && (old(fuel) == 0 ==> appHeight == old(appHeight) && state == old(state))
      ensures storeHeight == 0 && old(fuel) > 0 ==> !o.Crashed?
    {
      hide AppAt, StateAt, Respond;
      BelowFirst(chain, 0);
      HandshakeCovers(chain, base, storeHeight, state.lastBlockHeight, appHeight);
      StateAtHeight(chain, state.lastBlockHeight);
      var stateHeight, appBlockHeight := state.lastBlockHeight, appHeight;
      var appHash := chain.appHash(appValue);
      if appBlockHeight == 0 {
        o := InitChain();
        if o.Crashed? {
          return;
        }
        appHash := o.appHash;
      }
      match Decide(chain.initialHeight, base, storeHeight, stateHeight, appBlockHeight)
      case NothingStored => o := if appHash == state.appHash then Done(appHash) else Panicked;
      case AllSynced => o := if appHash == state.appHash then Done(appHash) else Panicked;
      case AppTooLow => o := Failed;
      case AppTooHigh => o := Failed;
      case StateAheadOfStore => o := Panicked;
      case StoreTooFarAhead => o := Panicked;
      case Uncovered => o := Panicked;
      case ReplayToApp => o := ReplayBlockRange(false);
      case ReplayThenApply => o := ReplayBlockRange(true);
      case ApplyWithApp =>
        var b := LoadBlock(storeHeight);
        o := ApplyBlock(b, RealApp);
      case ApplyWithMock =>
        if storeHeight !in responses {
          o := Failed;
          return;
        }
        var b := LoadBlock(storeHeight);
        o := ApplyBlock(b, MockApp);
    }

    /** The application comes back with an older state of its own, still in range. */
    method AppFallsBack(h: int)
      requires Durable() && Position(chain, h) && h <= appHeight
      requires storeHeight > 0 ==> if h == 0 then base == chain.initialHeight else base - 1 <= h
      modifies this`appHeight, this`appValue
      ensures Durable() && appHeight == h
    {
      if h != appHeight {
        appHeight := h;
        appValue := AppValue(h);
      }
    }

    function AppValue(h: int): (v: int)
      ensures v == AppAt(chain, h)
      decreases h - chain.initialHeight
    {
      if h < chain.initialHeight then chain.appInit
      else AppExec(chain, AppValue(h - 1), chain.block(h))
    }

    /** Normal operation: four durable writes for every block. */
    method FinalizeBlocks(n: nat) returns (o: Outcome)
      requires Synced()
      modifies this
      ensures Durable() && (o.Done? || o.Crashed?)
      ensures o.Done? ==> Synced() && storeHeight == Further(chain, old(storeHeight), n)
      ensures o.Done? <==> old(fuel) >= 4 * n
      ensures n == 0 || old(fuel) == 0 ==>
        storeHeight == old(storeHeight) && state == old(state) && appHeight == old(appHeight)
    {
      hide AppAt, StateAt, Respond, CrashHeights;
      o := Done(state.appHash);
      for k := 0 to n
        invariant Synced() && o.Done? && storeHeight == Further(chain, old(storeHeight), k)
        invariant fuel == old(fuel) - 4 * k
        invariant k == 0 ==> storeHeight == old(storeHeight) && state == old(state) && appHeight == old(appHeight)
      {
        o := FinalizeCommit();
        if !o.Done? { return; }
      }
    }

    /** The application may come back with this height. */
    predicate CanFallBack(h: int)
      reads this
    {
      && Position(chain, h) && h <= appHeight
      && (storeHeight > 0 ==> if h == 0 then base == chain.initialHeight else base - 1 <= h)
    }

    method Begin(start: Start)
      requires Durable()
      modifies this`fuel, this`appHeight, this`appValue
      ensures Durable() && fuel == start.fuel && Recoverable() == old(Recoverable())
      ensures appHeight == if old(CanFallBack(start.appHeight)) then start.appHeight else old(appHeight)
      ensures appHeight >= 0
    {
      hide AppAt, StateAt, Respond;
      fuel := start.fuel;
      if CanFallBack(start.appHeight) {
        AppFallsBack(start.appHeight);
      }
    }

    /** One start of the process, which dies after any number of durable writes: the
        handshake, and then normal operation. It succeeds if it lives long enough and what
        it finds is recoverable, and then all blocks asked for are finalized. */
    method StartOnce(start: Start) returns (o: Outcome)
      requires Durable()
      modifies this
      ensures Durable() && !o.Failed?
      ensures o.Done? ==> Synced() && storeHeight == Further(chain, old(storeHeight), start.blocks)
      ensures old(Recoverable()) && start.fuel >= old(storeHeight) + 4 + 4 * start.blocks ==> o.Done?
      ensures old(Recoverable()) && start.blocks == 0 ==> Recoverable()
      ensures chain.initialHeight == 1 && HashAgrees(chain) ==> !o.Panicked?
      ensures start.fuel == 0 ==>
        && storeHeight == old(storeHeight) && state == old(state)
        && appHeight == if old(CanFallBack(start.appHeight)) then start.appHeight else old(appHeight)
    {
      hide AppAt, StateAt, Respond, ChainOK, CrashHeights;
      Begin(start);
      o := ReplayBlocks();
      if o.Done? {
        o := FinalizeBlocks(start.blocks);
      }
    }

    /** A life of the process: any number of starts, with the application falling back in
        between. A start panics only on a chain that begins above height 1 or whose genesis
        hash InitChain does not confirm; one that survives its handshake has store, state
        and application level, and may then finalize blocks. */
    method Live(starts: seq<Start>) returns (outcomes: seq<Outcome>)
      requires Durable()
      modifies this
      ensures Durable() && |outcomes| == |starts|
      ensures forall k | 0 <= k < |starts| :: !outcomes[k].Failed?
      ensures chain.initialHeight == 1 && HashAgrees(chain) ==> forall k | 0 <= k < |starts| :: !outcomes[k].Panicked?
      ensures |starts| > 0 && outcomes[|starts| - 1].Done? ==> Synced()
    {
      hide AppAt, StateAt, Respond;
      outcomes := [];
      while |outcomes| < |starts|
        invariant Durable() && |outcomes| <= |starts|
        invariant forall k | 0 <= k < |outcomes| :: !outcomes[k].Failed?
        invariant chain.initialHeight == 1 && HashAgrees(chain) ==>
          forall k | 0 <= k < |outcomes| :: !outcomes[k].Panicked?
        invariant |outcomes| > 0 && outcomes[|outcomes| - 1].Done? ==> Synced()
      {
        var o := StartOnce(starts[|outcomes|]);
        outcomes := outcomes + [o];
      }
    }
  }

  /** How long a process lives, where the application stands, and how many blocks it
      would finalize. */
  datatype Start = Start(fuel: nat, appHeight: int, blocks: nat)

  // ------------------------------------------------------------ two runs that panic

  /** Empty blocks and an application that does nothing and has no hash. */
  function PlainChain(initialHeight: int, genesisHash: int): Chain {
    Chain(initialHeight, h => Block(h, [], if h == initialHeight then genesisHash else 0), 0, 0,
          (app, b) => app, (app, tx) => app, (app, tx) => 0, (app, b) => app, (app, b) => 0, app => 0,
          rest => rest, State(0, genesisHash, 0), (s: State, b, r) => s.rest)
  }

  lemma PlainChainOK(initialHeight: int, genesisHash: int)
    requires initialHeight >= 1
    ensures ChainOK(PlainChain(initialHeight, genesisHash))
  {
    var chain := PlainChain(initialHeight, genesisHash);
    forall h | h >= initialHeight
      ensures BlockFits(chain, h)
    {
      if h == initialHeight {
        BelowFirst(chain, h - 1);
      }
    }
  }

  /** The first block of a chain that starts above height 1 is stored and the process dies:
      the next start panics. */
  method FirstBlockAboveOne(initialHeight: int) returns (died: Outcome, o: Outcome)
    requires initialHeight > 1
    ensures died.Crashed? && o.Panicked?
  {
    PlainChainOK(initialHeight, 0);
    var node := new Node(PlainChain(initialHeight, 0));
    node.fuel := 1;
    o := node.ReplayBlocks();
    node.fuel := 1;
    died := node.FinalizeCommit();
    node.fuel := 1;
    o := node.ReplayBlocks();
  }

  /** A genesis hash, and an application whose InitChain returns none: no start survives. */
  method GenesisHashOnly(initialHeight: int, genesisHash: int, fuel: nat) returns (o: Outcome)
    requires initialHeight >= 1 && genesisHash != 0 && fuel > 0
    ensures o.Panicked?
  {
    PlainChainOK(initialHeight, genesisHash);
    var node := new Node(PlainChain(initialHeight, genesisHash));
    node.fuel := fuel;
    o := node.ReplayBlocks();
  }
}
