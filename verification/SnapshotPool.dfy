/** The pool of snapshots offered by peers during state sync: six maps kept in step, and
    three blacklists. */
module SnapshotPool {
  import opened Collections

  datatype Snapshot = Snapshot(height: nat, format: nat, chunks: nat, hash: string, metadata: string)

  type Peer = int
  type Key = int

  const RECENT_SNAPSHOTS := 10
  const NO_PEER: Peer := 0

  /** A missing entry of an index reads as empty. */
  type Index = map<int, set<int>>

  function Get(m: Index, a: int): set<int> {
    if a in m then m[a] else {}
  }

  function Insert(m: Index, a: int, x: int): (r: Index)
    ensures forall b {:trigger Get(r, b)} :: Get(r, b) == if b == a then Get(m, a) + {x} else Get(m, b)
  {
    m[a := Get(m, a) + {x}]
  }

  function Remove(m: Index, a: int, x: int): (r: Index)
    ensures forall b {:trigger Get(r, b)} :: Get(r, b) == if b == a then Get(m, a) - {x} else Get(m, b)
  {
    if a in m then m[a := m[a] - {x}] else m
  }

  function Drop(m: Index, a: int): (r: Index)
    ensures forall b {:trigger Get(r, b)} :: Get(r, b) == if b == a then {} else Get(m, b)
  {
    m - {a}
  }

  /** The index with `x` taken out of the entries of `ids`. */
  function Unlist(m: Index, ids: set<int>, x: int): (r: Index)
    ensures forall b {:trigger Get(r, b)} :: Get(r, b) == if b in ids then Get(m, b) - {x} else Get(m, b)
  {
    map id | id in m :: if id in ids then m[id] - {x} else m[id]
  }

  // ---------------------------------------------------------------------- coherence

  /** Which snapshots there are, who offers them, and the indexes over both. */
  datatype Pool = Pool(
    snapshots: map<Key, Snapshot>,
    snapshotPeers: Index,
    formatIndex: Index,
    heightIndex: Index,
    peerIndex: Index)

  ghost predicate Coherent(p: Pool, key: Snapshot -> Key) {
    && Indexed(p, key)
    && PeersAgree(p)
    && Offered(p)
    && Limited(p)
  }

  ghost predicate Offered(p: Pool) {
    forall k :: k in p.snapshots <==> Get(p.snapshotPeers, k) != {}
  }

  ghost predicate Limited(p: Pool) {
    forall id :: |Get(p.peerIndex, id)| <= RECENT_SNAPSHOTS
  }

  ghost predicate Indexed(p: Pool, key: Snapshot -> Key) {
    && (forall k | k in p.snapshots :: key(p.snapshots[k]) == k)
    && (forall f, k :: k in Get(p.formatIndex, f) <==> k in p.snapshots && p.snapshots[k].format == f)
    && (forall h, k :: k in Get(p.heightIndex, h) <==> k in p.snapshots && p.snapshots[k].height == h)
  }

  ghost predicate PeersAgree(p: Pool) {
    forall id, k :: id in Get(p.snapshotPeers, k) <==> k in Get(p.peerIndex, id)
  }

  datatype Blacklists = Blacklists(formats: set<int>, peers: set<Peer>, keys: set<Key>)

  /** Nothing blacklisted is in the pool. */
  ghost predicate Clean(p: Pool, b: Blacklists) {
    && (forall k | k in p.snapshots :: k !in b.keys && p.snapshots[k].format !in b.formats)
    && (forall id | id in b.peers :: Get(p.peerIndex, id) == {})
  }

  // --------------------------------------------------------------------- operations

  function Offer(p: Pool, key: Key, s: Snapshot, id: Peer): Pool {
    var offered := p.(snapshotPeers := Insert(p.snapshotPeers, key, id), peerIndex := Insert(p.peerIndex, id, key));
    if key in p.snapshots then offered
    else offered.(snapshots := p.snapshots[key := s],
                  formatIndex := Insert(p.formatIndex, s.format, key),
                  heightIndex := Insert(p.heightIndex, s.height, key))
  }

  /** One peer more offers the snapshot, which is kept as first offered. */
  ghost predicate OfferedBy(p: Pool, q: Pool, key: Key, s: Snapshot, id: Peer) {
    && q.snapshots == (if key in p.snapshots then p.snapshots else p.snapshots[key := s])
    && forall k ::
         Get(q.snapshotPeers, k) == if k == key then Get(p.snapshotPeers, k) + {id} else Get(p.snapshotPeers, k)
  }

  lemma OfferOK(p: Pool, key: Snapshot -> Key, s: Snapshot, id: Peer)
    requires Coherent(p, key) && |Get(p.peerIndex, id)| < RECENT_SNAPSHOTS
    ensures Coherent(Offer(p, key(s), s, id), key) && OfferedBy(p, Offer(p, key(s), s, id), key(s), s, id)
  {
    OfferIndexed(p, key, s, id);
    OfferPeers(p, key(s), s, id);
    OfferLimited(p, key(s), s, id);
    hide Indexed, PeersAgree, Offered, Limited, Get, Insert;
  }

  lemma OfferLimited(p: Pool, key: Key, s: Snapshot, id: Peer)
    requires Limited(p) && Offered(p) && |Get(p.peerIndex, id)| < RECENT_SNAPSHOTS
    ensures Limited(Offer(p, key, s, id)) && Offered(Offer(p, key, s, id))
  {
    hide Get, Insert;
  }

  lemma OfferIndexed(p: Pool, key: Snapshot -> Key, s: Snapshot, id: Peer)
    requires Indexed(p, key)
    ensures Indexed(Offer(p, key(s), s, id), key)
  {
    hide Get, Insert;
  }

  lemma OfferPeers(p: Pool, key: Key, s: Snapshot, id: Peer)
    requires PeersAgree(p)
    ensures PeersAgree(Offer(p, key, s, id))
  {
    hide Get, Insert;
  }

  /** The pool without one snapshot, and without the mention of it by any peer. */
  function Without(p: Pool, key: Key): Pool {
    if key !in p.snapshots then p
    else
      var s := p.snapshots[key];
      Pool(p.snapshots - {key}, Drop(p.snapshotPeers, key), Remove(p.formatIndex, s.format, key),
        Remove(p.heightIndex, s.height, key), Unlist(p.peerIndex, Get(p.snapshotPeers, key), key))
  }

  lemma WithoutOK(p: Pool, key: Snapshot -> Key, k: Key)
    requires Coherent(p, key)
    ensures Coherent(Without(p, k), key) && Shrunk(p, Without(p, k))
    ensures Without(p, k).snapshots == p.snapshots - {k}
    ensures forall other | other != k :: Get(Without(p, k).snapshotPeers, other) == Get(p.snapshotPeers, other)
  {
    hide Indexed, PeersAgree, Limited, Without, Get;
    WithoutIndexed(p, key, k);
    WithoutPeers(p, k);
    WithoutOffered(p, k);
    WithoutLimited(p, k);
    ShrunkBy(p, Without(p, k), k);
  }

  /** Exactly the one snapshot goes. */
  lemma WithoutOffered(p: Pool, k: Key)
    requires forall other | other != k :: other in p.snapshots <==> Get(p.snapshotPeers, other) != {}
    requires k !in p.snapshots ==> Get(p.snapshotPeers, k) == {}
    ensures Offered(Without(p, k)) && Without(p, k).snapshots == p.snapshots - {k}
    ensures forall other | other != k :: Get(Without(p, k).snapshotPeers, other) == Get(p.snapshotPeers, other)
  {
    hide Get, Remove, Drop, Unlist;
  }

  lemma WithoutLimited(p: Pool, k: Key)
    requires Limited(p)
    ensures Limited(Without(p, k))
  {
    hide Get, Remove, Drop, Unlist;
    forall id ensures |Get(Without(p, k).peerIndex, id)| <= RECENT_SNAPSHOTS {
      Smaller(Get(p.peerIndex, id), k);
    }
  }

  lemma WithoutIndexed(p: Pool, key: Snapshot -> Key, k: Key)
    requires Indexed(p, key)
    ensures Indexed(Without(p, k), key)
  {
    hide Get, Remove, Drop, Unlist;
  }

  lemma WithoutPeers(p: Pool, k: Key)
    requires PeersAgree(p)
    ensures PeersAgree(Without(p, k))
  {
    hide Get, Remove, Drop, Unlist;
  }

  lemma Smaller(s: set<Key>, k: Key)
    ensures |s - {k}| <= |s|
  {
    if k in s {
      assert s == s - {k} + {k};
    } else {
      assert s - {k} == s;
    }
  }

  /** Peer `id` no longer offers snapshot `k`. */
  function Leave(p: Pool, k: Key, id: Peer): Pool {
    p.(snapshotPeers := Remove(p.snapshotPeers, k, id), peerIndex := Remove(p.peerIndex, id, k))
  }

  /** The snapshot goes when nobody else offers it. */
  function Left(p: Pool, k: Key, id: Peer): Pool {
    if Get(Leave(p, k, id).snapshotPeers, k) == {} then Without(Leave(p, k, id), k) else Leave(p, k, id)
  }

  lemma LeftOK(p: Pool, key: Snapshot -> Key, k: Key, id: Peer)
    requires Coherent(p, key)
    ensures Coherent(Left(p, k, id), key)
    ensures Left(p, k, id).snapshots == if Get(p.snapshotPeers, k) <= {id} then p.snapshots - {k} else p.snapshots
    ensures forall other :: Get(Left(p, k, id).snapshotPeers, other)
                         == if other == k then Get(p.snapshotPeers, k) - {id} else Get(p.snapshotPeers, other)
  {
    hide Indexed, PeersAgree, Limited, Offered, Leave, Without, Get;
    LeaveFacts(p, key, k, id);
    WithoutIndexed(Leave(p, k, id), key, k);
    WithoutPeers(Leave(p, k, id), k);
    WithoutLimited(Leave(p, k, id), k);
    WithoutOffered(Leave(p, k, id), k);
    StillOffered(Leave(p, k, id), k);
  }

  lemma LeaveFacts(p: Pool, key: Snapshot -> Key, k: Key, id: Peer)
    requires Coherent(p, key)
    ensures var left := Leave(p, k, id);
      && Indexed(left, key) && PeersAgree(left) && Limited(left) && left.snapshots == p.snapshots
      && (forall other :: Get(left.snapshotPeers, other)
                       == if other == k then Get(p.snapshotPeers, k) - {id} else Get(p.snapshotPeers, other))
      && (forall other | other != k :: other in left.snapshots <==> Get(left.snapshotPeers, other) != {})
      && (k !in left.snapshots ==> Get(left.snapshotPeers, k) == {})
  {
    hide Indexed, PeersAgree, Limited, Get, Remove;
    SameIndexes(p, Leave(p, k, id), key);
    LeavePeers(p, k, id);
    LeaveLimited(p, k, id);
  }

  lemma LeavePeers(p: Pool, k: Key, id: Peer)
    requires PeersAgree(p)
    ensures PeersAgree(Leave(p, k, id))
  {
    hide Get, Remove;
  }

  lemma LeaveLimited(p: Pool, k: Key, id: Peer)
    requires Limited(p)
    ensures Limited(Leave(p, k, id))
  {
    hide Get, Remove;
    forall other ensures |Get(Leave(p, k, id).peerIndex, other)| <= RECENT_SNAPSHOTS {
      Smaller(Get(p.peerIndex, other), k);
    }
  }

  lemma StillOffered(p: Pool, k: Key)
    requires forall other | other != k :: other in p.snapshots <==> Get(p.snapshotPeers, other) != {}
    requires k !in p.snapshots ==> Get(p.snapshotPeers, k) == {}
    ensures Get(p.snapshotPeers, k) != {} ==> Offered(p)
    ensures Get(p.snapshotPeers, k) == {} ==> Get(Without(p, k).snapshotPeers, k) == {}
  {
    hide Get, Remove, Drop, Unlist;
  }

  lemma SameIndexes(p: Pool, q: Pool, key: Snapshot -> Key)
    requires Indexed(p, key) && p.snapshots == q.snapshots
    requires p.formatIndex == q.formatIndex && p.heightIndex == q.heightIndex
    ensures Indexed(q, key)
  {
  }

  /** A pool with fewer snapshots and fewer offers is as clean. */
  lemma StaysClean(p: Pool, q: Pool, key: Snapshot -> Key, b: Blacklists)
    requires Clean(p, b) && Coherent(p, key) && Coherent(q, key) && Shrunk(p, q)
    ensures Clean(q, b)
  {
    hide Indexed, Limited, Offered, Get;
    forall id | id in b.peers ensures Get(q.peerIndex, id) == {} {
      forall k ensures k !in Get(q.peerIndex, id) {
        assert id in Get(q.snapshotPeers, k) ==> id in Get(p.snapshotPeers, k);
      }
    }
  }

  ghost predicate Shrunk(p: Pool, q: Pool) {
    && (forall k | k in q.snapshots :: k in p.snapshots && q.snapshots[k] == p.snapshots[k])
    && (forall k :: Get(q.snapshotPeers, k) <= Get(p.snapshotPeers, k))
  }

  /** Only what an index reads as matters. */
  lemma SamePeerIndex(p: Pool, index: Index, key: Snapshot -> Key)
    requires Coherent(p, key) && forall id :: Get(index, id) == Get(p.peerIndex, id)
    ensures Coherent(p.(peerIndex := index), key)
  {
    hide Indexed, Get;
    SameIndexes(p, p.(peerIndex := index), key);
  }

  lemma UnlistMore(m: Index, done: set<int>, id: int, x: int)
    ensures Unlist(m, {}, x) == m
    ensures Remove(Unlist(m, done, x), id, x) == Unlist(m, done + {id}, x)
  {
    forall b | b in m ensures Remove(Unlist(m, done, x), id, x)[b] == Unlist(m, done + {id}, x)[b] {
      assert m[b] - {x} - {x} == m[b] - {x};
    }
  }

  // ------------------------------------------------------------------------- ranking

  /** Higher first, then the later format, then more peers. */
  predicate Above(snapshots: map<Key, Snapshot>, peers: Index, a: Key, b: Key)
    requires a in snapshots && b in snapshots
  {
    var x, y := snapshots[a], snapshots[b];
    if x.height > y.height then true
    else if x.height < y.height then false
    else if x.format > y.format then true
    else if x.format < y.format then false
    else |Get(peers, a)| > |Get(peers, b)|
  }

  ghost predicate RanksAbove(p: Pool, a: Key, b: Key) {
    a in p.snapshots && b in p.snapshots && Above(p.snapshots, p.snapshotPeers, a, b)
  }

  /** At least as high; of one height, in no earlier format; of one format too, with no
      fewer peers. */
  ghost predicate NoWorse(p: Pool, a: Key, b: Key) {
    && a in p.snapshots && b in p.snapshots && p.snapshots[a].height >= p.snapshots[b].height
    && (p.snapshots[a].height == p.snapshots[b].height ==> p.snapshots[a].format >= p.snapshots[b].format)
    && (p.snapshots[a].height == p.snapshots[b].height && p.snapshots[a].format == p.snapshots[b].format ==>
          |Get(p.snapshotPeers, a)| >= |Get(p.snapshotPeers, b)|)
  }

  lemma NotAbove(p: Pool, a: Key, b: Key)
    requires a in p.snapshots && b in p.snapshots
    ensures !RanksAbove(p, b, a) <==> NoWorse(p, a, b)
  {
  }

  ghost predicate InOrder(p: Pool, ranked: seq<Key>) {
    forall i, j | 0 <= i < j < |ranked| :: !RanksAbove(p, ranked[j], ranked[i])
  }

  function Place(snapshots: map<Key, Snapshot>, peers: Index, k: Key, ranked: seq<Key>): (r: seq<Key>)
    requires k in snapshots && forall x | x in ranked :: x in snapshots
    ensures |r| == |ranked| + 1 && forall x :: x in r <==> x == k || x in ranked
  {
    if ranked == [] || Above(snapshots, peers, k, ranked[0]) then [k] + ranked
    else [ranked[0]] + Place(snapshots, peers, k, ranked[1..])
  }

  lemma {:induction false} PlaceOK(p: Pool, k: Key, ranked: seq<Key>)
    requires k in p.snapshots && (forall x | x in ranked :: x in p.snapshots) && InOrder(p, ranked)
    ensures InOrder(p, Place(p.snapshots, p.snapshotPeers, k, ranked))
  {
    if ranked == [] || Above(p.snapshots, p.snapshotPeers, k, ranked[0]) {
      forall x | x in ranked ensures !RanksAbove(p, x, k) {
        hide Get;
        assert x == ranked[0] || !RanksAbove(p, x, ranked[0]);
      }
    } else {
      PlaceOK(p, k, ranked[1..]);
      var rest := Place(p.snapshots, p.snapshotPeers, k, ranked[1..]);
      hide Above;
      forall i | 0 <= i < |rest| ensures !RanksAbove(p, rest[i], ranked[0]) {
        assert rest[i] in rest;
      }
    }
  }

  datatype Request =
    | AddSnapshot(peer: Peer, snapshot: Snapshot)
    | RejectSnapshot(snapshot: Snapshot)
    | RejectFormat(format: int)
    | RejectPeer(peer: Peer)
    | RemovePeer(peer: Peer)

  // ------------------------------------------------------- the pool without its indexes

  /** What each peer offers, what these snapshots are, and what is refused. */
  datatype Ledger = Ledger(lists: Index, known: map<Key, Snapshot>, refused: Blacklists)

  function Strike(m: Ledger, keys: set<Key>): Ledger {
    m.(lists := map id | id in m.lists :: m.lists[id] - keys, known := m.known - keys)
  }

  function Part(m: Ledger, peer: Peer): Ledger {
    var lists := m.lists - {peer};
    m.(lists := lists, known := map k | k in m.known && exists id | id in lists :: k in lists[id] :: m.known[k])
  }

  function Deal(m: Ledger, key: Snapshot -> Key, r: Request): Ledger {
    match r
    case AddSnapshot(peer, s) =>
      if s.format in m.refused.formats || peer in m.refused.peers || key(s) in m.refused.keys
         || |Get(m.lists, peer)| >= RECENT_SNAPSHOTS then m
      else m.(lists := m.lists[peer := Get(m.lists, peer) + {key(s)}],
              known := if key(s) in m.known then m.known else m.known[key(s) := s])
    case RejectSnapshot(s) =>
      Strike(m, {key(s)}).(refused := m.refused.(keys := m.refused.keys + {key(s)}))
    case RejectFormat(format) =>
      Strike(m, set k | k in m.known && m.known[k].format == format)
        .(refused := m.refused.(formats := m.refused.formats + {format}))
    case RejectPeer(peer) =>
      if peer == NO_PEER then m else Part(m, peer).(refused := m.refused.(peers := m.refused.peers + {peer}))
    case RemovePeer(peer) => Part(m, peer)
  }

  function DealAll(m: Ledger, key: Snapshot -> Key, requests: seq<Request>): Ledger {
    if requests == [] then m
    else Deal(DealAll(m, key, requests[..|requests| - 1]), key, requests[|requests| - 1])
  }

  ghost predicate Tells(m: Ledger, p: Pool, b: Blacklists) {
    m.refused == b && m.known == p.snapshots && forall id :: Get(m.lists, id) == Get(p.peerIndex, id)
  }

  lemma TellsItself(p: Pool, b: Blacklists)
    ensures Tells(Ledger(p.peerIndex, p.snapshots, b), p, b)
  {
  }

  lemma TellsAdded(m: Ledger, p: Pool, q: Pool, b: Blacklists, key: Snapshot -> Key, peer: Peer, s: Snapshot)
    requires Tells(m, p, b) && Coherent(p, key) && Coherent(q, key) && OfferedBy(p, q, key(s), s, peer)
    ensures var lists := m.lists[peer := Get(m.lists, peer) + {key(s)}];
      forall id :: Get(lists, id) == Get(q.peerIndex, id)
  {
    hide Indexed, Limited, Offered;
    var lists := m.lists[peer := Get(m.lists, peer) + {key(s)}];
    forall id ensures Get(lists, id) == Get(q.peerIndex, id) {
      forall k ensures k in Get(lists, id) <==> k in Get(q.peerIndex, id) {
        assert id in Get(q.snapshotPeers, k) <==> k in Get(q.peerIndex, id);
        assert id in Get(p.snapshotPeers, k) <==> k in Get(p.peerIndex, id);
      }
    }
  }

  lemma TellsStruck(m: Ledger, p: Pool, q: Pool, b: Blacklists, key: Snapshot -> Key, keys: set<Key>)
    requires Tells(m, p, b) && Coherent(p, key) && Coherent(q, key) && q.snapshots == p.snapshots - keys
    requires forall k | k in q.snapshots :: Get(q.snapshotPeers, k) == Get(p.snapshotPeers, k)
    ensures Tells(Strike(m, keys), q, b)
  {
    hide Indexed, Limited;
    var lists := Strike(m, keys).lists;
    forall id ensures Get(lists, id) == Get(q.peerIndex, id) {
      forall k ensures k in Get(lists, id) <==> k in Get(q.peerIndex, id) {
        assert id in Get(q.snapshotPeers, k) <==> k in Get(q.peerIndex, id);
        assert id in Get(p.snapshotPeers, k) <==> k in Get(p.peerIndex, id);
        assert k in q.snapshots <==> Get(q.snapshotPeers, k) != {};
        assert k in p.snapshots <==> Get(p.snapshotPeers, k) != {};
      }
    }
  }

  lemma NobodyOrSome(peers: set<Peer>)
    ensures peers == {} || exists id :: id in peers
  {
    if forall id :: id !in peers {
      assert peers == {};
    }
  }

  lemma TellsParted(m: Ledger, p: Pool, q: Pool, b: Blacklists, key: Snapshot -> Key, peer: Peer)
    requires Tells(m, p, b) && Coherent(p, key) && Coherent(q, key) && Shrunk(p, q)
    requires forall k :: Get(q.snapshotPeers, k) == Get(p.snapshotPeers, k) - {peer}
    ensures Tells(Part(m, peer), q, b)
  {
    hide Indexed, Limited, Offered;
    var lists := Part(m, peer).lists;
    forall id ensures Get(lists, id) == Get(q.peerIndex, id) {
      forall k ensures k in Get(lists, id) <==> k in Get(q.peerIndex, id) {
        assert id in Get(q.snapshotPeers, k) <==> k in Get(q.peerIndex, id);
        assert id in Get(p.snapshotPeers, k) <==> k in Get(p.peerIndex, id);
      }
    }
    StillKnown(m.known, lists, p, q);
  }

  /** The snapshots left are those that somebody still offers. */
  lemma StillKnown(known: map<Key, Snapshot>, lists: Index, p: Pool, q: Pool)
    requires PeersAgree(q) && Offered(q) && Shrunk(p, q) && known == p.snapshots
    requires forall id :: Get(lists, id) == Get(q.peerIndex, id)
    ensures q.snapshots == map k | k in known && exists id | id in lists :: k in lists[id] :: known[k]
  {
    forall k | k in q.snapshots ensures exists id | id in lists :: k in lists[id] {
      NobodyOrSome(Get(q.snapshotPeers, k));
      var id :| id in Get(q.snapshotPeers, k);
      assert k in Get(lists, id);
    }
    forall k, id | id in lists && k in lists[id] ensures k in q.snapshots {
      assert k in Get(lists, id);
      assert id in Get(q.snapshotPeers, k);
    }
    var left := map k | k in known && exists id | id in lists :: k in lists[id] :: known[k];
    assert forall k :: k in left <==> k in q.snapshots;
    assert forall k | k in left :: left[k] == q.snapshots[k];
  }

  class SnapshotPool {
    const key: Snapshot -> Key
    var snapshots: map<Key, Snapshot>
    var snapshotPeers: Index
    var formatIndex: Index
    var heightIndex: Index
    var peerIndex: Index
    var formatBlacklist: set<int>
    var peerBlacklist: set<Peer>
    var snapshotBlacklist: set<Key>

    ghost function View(): Pool reads this {
      Pool(snapshots, snapshotPeers, formatIndex, heightIndex, peerIndex)
    }

    ghost function Blacklisted(): Blacklists reads this {
      Blacklists(formatBlacklist, peerBlacklist, snapshotBlacklist)
    }

    ghost predicate Valid() reads this {
      Coherent(View(), key) && Clean(View(), Blacklisted())
    }

    constructor(key: Snapshot -> Key)
      ensures Valid() && this.key == key && snapshots == map[]
      ensures Blacklisted() == Blacklists({}, {}, {})
    {
      this.key := key;
      snapshots, snapshotPeers, formatIndex, heightIndex, peerIndex := map[], map[], map[], map[], map[];
      formatBlacklist, peerBlacklist, snapshotBlacklist := {}, {}, {};
    }

    /** Refused when blacklisted or when the peer already has ten snapshots in the pool. */
    method Add(peer: Peer, s: Snapshot) returns (added: bool)
      requires Valid()
      modifies this
      ensures Valid() && Blacklisted() == old(Blacklisted())
      ensures
        if s.format in formatBlacklist || peer in peerBlacklist || key(s) in snapshotBlacklist
          || |Get(old(peerIndex), peer)| >= RECENT_SNAPSHOTS
        then !added && View() == old(View())
        else
          && added == (key(s) !in old(snapshots)) && View() == Offer(old(View()), key(s), s, peer)
          && OfferedBy(old(View()), View(), key(s), s, peer)
    {
      hide Get, Insert, Coherent, OfferedBy;
      var k := key(s);
      if s.format in formatBlacklist || peer in peerBlacklist || k in snapshotBlacklist
        || |Get(peerIndex, peer)| >= RECENT_SNAPSHOTS { return false; }
      OfferOK(View(), key, s, peer);
      snapshotPeers := Insert(snapshotPeers, k, peer);
      peerIndex := Insert(peerIndex, peer, k);
      if k in snapshots { return false; }
      snapshots := snapshots[k := s];
      formatIndex := Insert(formatIndex, s.format, k);
      heightIndex := Insert(heightIndex, s.height, k);
      added := true;
    }

    method RemoveSnapshot(k: Key)
      modifies `snapshots, `snapshotPeers, `formatIndex, `heightIndex, `peerIndex
      ensures View() == Without(old(View()), k)
    {
      if k !in snapshots { return; }
      hide Get, Remove, Unlist;
      var s := snapshots[k];
      snapshots := snapshots - {k};
      formatIndex := Remove(formatIndex, s.format, k);
      heightIndex := Remove(heightIndex, s.height, k);
      var ids := Get(snapshotPeers, k);
      var todo := ids;
      UnlistMore(peerIndex, {}, 0, k);
      while todo != {}
        invariant todo <= ids && peerIndex == Unlist(old(peerIndex), ids - todo, k)
        modifies `peerIndex
        decreases |todo|
      {
        var id := Pick(todo);
        UnlistMore(old(peerIndex), ids - todo, id, k);
        assert ids - (todo - {id}) == ids - todo + {id};
        peerIndex := Remove(peerIndex, id, k);
        todo := todo - {id};
      }
      assert ids - todo == ids;
      snapshotPeers := snapshotPeers - {k};
    }

    method Reject(s: Snapshot)
      requires Valid()
      modifies this
      ensures Valid()
      ensures Blacklisted() == old(Blacklisted()).(keys := old(snapshotBlacklist) + {key(s)})
      ensures snapshots == old(snapshots) - {key(s)}
      ensures forall k | k != key(s) :: Get(snapshotPeers, k) == Get(old(snapshotPeers), k)
    {
      hide Get, Coherent, Without, Shrunk;
      WithoutOK(View(), key, key(s));
      snapshotBlacklist := snapshotBlacklist + {key(s)};
      RemoveSnapshot(key(s));
      StaysClean(old(View()), View(), key, old(Blacklisted()));
    }

    method RejectFormat(format: int)
      requires Valid()
      modifies this
      ensures Valid()
      ensures Blacklisted() == old(Blacklisted()).(formats := old(formatBlacklist) + {format})
      ensures forall k :: k in snapshots <==> k in old(snapshots) && old(snapshots)[k].format != format
      ensures snapshots == old(snapshots) - Get(old(formatIndex), format)
      ensures forall k | k in snapshots :: Get(snapshotPeers, k) == Get(old(snapshotPeers), k)
    {
      hide Get, Coherent, Without, Shrunk;
      FormatListed(View(), key, format);
      formatBlacklist := formatBlacklist + {format};
      var todo := Get(formatIndex, format);
      ghost var start := View();
      ShrunkSelf(start);
      while todo != {}
        modifies `snapshots, `snapshotPeers, `formatIndex, `heightIndex, `peerIndex
        invariant Coherent(View(), key) && Shrunk(start, View()) && todo <= Get(start.formatIndex, format)
        invariant snapshots == start.snapshots - (Get(start.formatIndex, format) - todo)
        invariant forall k | k in snapshots :: Get(snapshotPeers, k) == Get(start.snapshotPeers, k)
        decreases |todo|
      {
        var k := Pick(todo);
        ghost var before := View();
        WithoutOK(before, key, k);
        RemoveSnapshot(k);
        ShrunkMore(start, before, View());
        todo := todo - {k};
        assert snapshots == start.snapshots - (Get(start.formatIndex, format) - todo);
      }
      StaysClean(start, View(), key, old(Blacklisted()));
    }

    method RemovePeerFrom(peer: Peer)
      requires Valid()
      modifies `snapshots, `snapshotPeers, `formatIndex, `heightIndex, `peerIndex
      ensures Valid() && Get(peerIndex, peer) == {}
      ensures forall k :: Get(snapshotPeers, k) == Get(old(snapshotPeers), k) - {peer}
      ensures Shrunk(old(View()), View())
    {
      hide Get, Coherent, Clean, Without, Shrunk, Remove, Left, Departed;
      var todo := Get(peerIndex, peer);
      ghost var start := View();
      ShrunkSelf(start);
      Listed(start, peer, key);
      while todo != {}
        modifies `snapshots, `snapshotPeers, `formatIndex, `heightIndex, `peerIndex
        invariant Coherent(View().(peerIndex := peerIndex[peer := todo]), key)
        invariant Shrunk(start, View()) && Departed(start, View(), todo, peer)
        decreases |todo|
      {
        var k := Pick(todo);
        ghost var before := View();
        LeftOK(before.(peerIndex := peerIndex[peer := todo]), key, k, peer);
        LeftView(before, peer, todo, k);
        snapshotPeers := Remove(snapshotPeers, k, peer);
        ghost var listed := todo;
        todo := todo - {k};
        assert todo + {k} == listed;
        if Get(snapshotPeers, k) == {} {
          RemoveSnapshot(k);
        }
        DepartedMore(start, before, View(), todo, k, peer);
      }
      ghost var last := View();
      Delisted(last, peer, key);
      peerIndex := peerIndex - {peer};
      DepartedAll(start, last, View(), peer);
      StaysClean(start, View(), key, Blacklisted());
    }

    method RejectPeer(peer: Peer)
      requires Valid()
      modifies this
      ensures Valid()
      ensures Blacklisted() == old(Blacklisted()).(peers := old(peerBlacklist) + if peer == NO_PEER then {} else {peer})
      ensures peer == NO_PEER ==> View() == old(View())
      ensures peer != NO_PEER ==> forall k :: Get(snapshotPeers, k) == Get(old(snapshotPeers), k) - {peer}
      ensures Shrunk(old(View()), View())
    {
      hide Get, Coherent, Shrunk;
      ShrunkSelf(View());
      if peer == NO_PEER { return; }
      RemovePeerFrom(peer);
      peerBlacklist := peerBlacklist + {peer};
    }

    /** All snapshots, none before one that ranks above it. */
    method Ranked() returns (ranked: seq<Key>)
      ensures |ranked| == |snapshots| && forall k :: k in ranked <==> k in snapshots
      ensures forall i, j | 0 <= i < j < |ranked| :: !RanksAbove(View(), ranked[j], ranked[i])
      ensures forall i, j | 0 <= i < j < |ranked| :: NoWorse(View(), ranked[i], ranked[j])
    {
      hide RanksAbove, NoWorse, Place;
      ranked := [];
      var todo := snapshots.Keys;
      ghost var pool := View();
      while todo != {}
        invariant todo <= snapshots.Keys && |ranked| + |todo| == |snapshots|
        invariant forall k :: k in ranked <==> k in snapshots && k !in todo
        invariant InOrder(pool, ranked)
        decreases |todo|
      {
        var k := Pick(todo);
        PlaceOK(pool, k, ranked);
        ranked := Place(snapshots, snapshotPeers, k, ranked);
        todo := todo - {k};
      }
      forall i, j | 0 <= i < j < |ranked| ensures NoWorse(pool, ranked[i], ranked[j]) {
        NotAbove(pool, ranked[i], ranked[j]);
      }
    }

    /** One request does to the pool what it does to a ledger that tells what is in it. */
    method Serve(r: Request, ghost m: Ledger)
      requires Valid() && Tells(m, View(), Blacklisted())
      modifies this
      ensures Valid() && Tells(Deal(m, key, r), View(), Blacklisted())
      ensures old(formatBlacklist) <= formatBlacklist && old(peerBlacklist) <= peerBlacklist
      ensures old(snapshotBlacklist) <= snapshotBlacklist
      ensures r.RejectSnapshot? ==> key(r.snapshot) in snapshotBlacklist
      ensures r.RejectFormat? ==> r.format in formatBlacklist
      ensures r.RejectPeer? && r.peer != NO_PEER ==> r.peer in peerBlacklist
    {
      hide Coherent, Clean, Get, Shrunk, OfferedBy, Strike, Part;
      ghost var p, b := View(), Blacklisted();
      match r
      case AddSnapshot(peer, snapshot) =>
        var added := Add(peer, snapshot);
        if OfferedBy(p, View(), key(snapshot), snapshot, peer) {
          TellsAdded(m, p, View(), b, key, peer, snapshot);
        }
      case RejectSnapshot(snapshot) =>
        Reject(snapshot);
        TellsStruck(m, p, View(), b, key, {key(snapshot)});
      case RejectFormat(format) =>
        RejectFormat(format);
        FormatListed(p, key, format);
        TellsStruck(m, p, View(), b, key, Get(p.formatIndex, format));
      case RejectPeer(peer) =>
        RejectPeer(peer);
        if peer != NO_PEER {
          TellsParted(m, p, View(), b, key, peer);
        }
      case RemovePeer(peer) =>
        RemovePeerFrom(peer);
        TellsParted(m, p, View(), b, key, peer);
    }

    /** Any sequence of requests keeps the maps in step and the blacklists only grow, so
        that what was rejected by key, format or peer never comes back. */
    method Live(requests: seq<Request>)
      requires Valid()
      modifies this
      ensures Valid()
      ensures old(formatBlacklist) <= formatBlacklist && old(peerBlacklist) <= peerBlacklist
      ensures old(snapshotBlacklist) <= snapshotBlacklist
      ensures forall r | r in requests && r.RejectSnapshot? :: key(r.snapshot) in snapshotBlacklist
      ensures forall r | r in requests && r.RejectFormat? :: r.format in formatBlacklist
      ensures forall r | r in requests && r.RejectPeer? && r.peer != NO_PEER :: r.peer in peerBlacklist
      ensures var ledger := Ledger(old(peerIndex), old(snapshots), old(Blacklisted()));
        Tells(DealAll(ledger, key, requests), View(), Blacklisted())
    {
      hide Coherent, Clean, Get, Shrunk, Tells, Deal, OfferedBy;
      ghost var ledger := Ledger(peerIndex, snapshots, Blacklisted());
      TellsItself(View(), Blacklisted());
      for i := 0 to |requests|
        invariant Valid() && Tells(DealAll(ledger, key, requests[..i]), View(), Blacklisted())
        invariant old(formatBlacklist) <= formatBlacklist && old(peerBlacklist) <= peerBlacklist
        invariant old(snapshotBlacklist) <= snapshotBlacklist
        invariant forall r | r in requests[..i] && r.RejectSnapshot? :: key(r.snapshot) in snapshotBlacklist
        invariant forall r | r in requests[..i] && r.RejectFormat? :: r.format in formatBlacklist
        invariant forall r | r in requests[..i] && r.RejectPeer? && r.peer != NO_PEER :: r.peer in peerBlacklist
      {
        assert requests[..i + 1] == requests[..i] + [requests[i]];
        ghost var m := DealAll(ledger, key, requests[..i]);
        Serve(requests[i], m);
        assert requests[..i + 1][..i] == requests[..i];
      }
      assert requests[..|requests|] == requests;
    }
  }

  lemma FormatListed(p: Pool, key: Snapshot -> Key, format: int)
    requires Coherent(p, key)
    ensures forall k :: k in Get(p.formatIndex, format) <==> k in p.snapshots && p.snapshots[k].format == format
    ensures Get(p.formatIndex, format) == set k | k in p.snapshots && p.snapshots[k].format == format
  {
  }

  lemma Listed(p: Pool, peer: Peer, key: Snapshot -> Key)
    requires Coherent(p, key)
    ensures Coherent(p.(peerIndex := p.peerIndex[peer := Get(p.peerIndex, peer)]), key)
    ensures Departed(p, p, Get(p.peerIndex, peer), peer)
  {
    SamePeerIndex(p, p.peerIndex[peer := Get(p.peerIndex, peer)], key);
    hide Indexed, Offered, Limited;
    forall k | k !in Get(p.peerIndex, peer) ensures Get(p.snapshotPeers, k) == Get(p.snapshotPeers, k) - {peer} {
      assert peer !in Get(p.snapshotPeers, k);
    }
  }

  lemma Delisted(p: Pool, peer: Peer, key: Snapshot -> Key)
    requires Coherent(p.(peerIndex := p.peerIndex[peer := {}]), key)
    ensures Coherent(p.(peerIndex := p.peerIndex - {peer}), key) && Get(p.peerIndex - {peer}, peer) == {}
  {
    hide Coherent;
    SamePeerIndex(p.(peerIndex := p.peerIndex[peer := {}]), p.peerIndex - {peer}, key);
  }

  lemma LeftView(p: Pool, peer: Peer, todo: set<Key>, k: Key)
    ensures var removed := p.(snapshotPeers := Remove(p.snapshotPeers, k, peer));
      var after := if Get(removed.snapshotPeers, k) == {} then Without(removed, k) else removed;
      after.(peerIndex := after.peerIndex[peer := todo - {k}]) ==
        Left(p.(peerIndex := p.peerIndex[peer := todo]), k, peer)
  {
    var listed := p.peerIndex[peer := todo];
    assert Remove(listed, peer, k) == p.peerIndex[peer := todo - {k}];
    UnlistMore(p.peerIndex, {}, 0, k);
    UnlistMore(p.peerIndex[peer := todo - {k}], {}, 0, k);
    hide Unlist, Drop, Get;
  }

  /** The peer has left all snapshots but those in `todo`. */
  ghost predicate Departed(start: Pool, p: Pool, todo: set<Key>, peer: Peer) {
    forall k :: Get(p.snapshotPeers, k) == Get(start.snapshotPeers, k) - if k in todo then {} else {peer}
  }

  lemma DepartedMore(start: Pool, p: Pool, q: Pool, todo: set<Key>, k: Key, peer: Peer)
    requires Departed(start, p, todo + {k}, peer) && Shrunk(start, p) && k !in todo
    requires q.snapshots == p.snapshots || q.snapshots == p.snapshots - {k}
    requires forall other :: Get(q.snapshotPeers, other)
                          == if other == k then Get(p.snapshotPeers, k) - {peer} else Get(p.snapshotPeers, other)
    ensures Departed(start, q, todo, peer) && Shrunk(start, q)
  {
    hide Get;
  }

  lemma DepartedAll(start: Pool, p: Pool, q: Pool, peer: Peer)
    requires Departed(start, p, {}, peer) && Shrunk(start, p)
    requires q.snapshots == p.snapshots && q.snapshotPeers == p.snapshotPeers
    ensures Shrunk(start, q) && forall k :: Get(q.snapshotPeers, k) == Get(start.snapshotPeers, k) - {peer}
  {
    hide Get;
  }

  lemma ShrunkSelf(p: Pool)
    ensures Shrunk(p, p)
  {
  }

  lemma ShrunkMore(p: Pool, q: Pool, r: Pool)
    requires Shrunk(p, q) && Shrunk(q, r)
    ensures Shrunk(p, r)
  {
    hide Get;
  }

  lemma ShrunkBy(p: Pool, q: Pool, k: Key)
    requires Offered(q) && q.snapshots == p.snapshots - {k}
    requires forall other | other != k :: Get(q.snapshotPeers, other) == Get(p.snapshotPeers, other)
    ensures Shrunk(p, q)
  {
    hide Get;
  }
}
