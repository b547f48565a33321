/** The mempool reactor's 16-bit ids for its peers. */
module PeerIDs {
  import opened Collections

  const MAX_ACTIVE_IDS := 65535
  const WRAP := 65536

  type Peer = int

  /** How far the counter has to run, with wrap-around, to reach an id. */
  function Distance(from: int, id: int): nat
    requires 0 <= from < WRAP && 0 <= id < WRAP
  {
    if from <= id then id - from else id + WRAP - from
  }

  lemma FreeID(active: set<int>) returns (id: int)
    requires |active| < WRAP && forall x | x in active :: 0 <= x < WRAP
    ensures 0 <= id < WRAP && id !in active
  {
    var all := Below(WRAP);
    assert active <= all;
    assert all - active + active == all && |all - active| + |active| == WRAP;
    EmptyOrNot(all - active);
    id :| id in all - active;
  }

  class MempoolIDs {
    var peerMap: map<Peer, int>
    var nextID: int
    var activeIDs: set<int>

    /** Live peers hold distinct ids, all in use and none of them 0. */
    ghost predicate Valid() reads this {
      && 0 <= nextID < WRAP && 0 in activeIDs && |activeIDs| <= MAX_ACTIVE_IDS
      && (forall id | id in activeIDs :: 0 <= id < WRAP)
      && (forall p | p in peerMap :: peerMap[p] in activeIDs && peerMap[p] != 0)
      && (forall p, q | p in peerMap && q in peerMap && p != q :: peerMap[p] != peerMap[q])
    }

    constructor()
      ensures Valid() && peerMap == map[]
    {
      peerMap, activeIDs, nextID := map[], {0}, 1;
    }

    /** `id` is -1 when the node panics for want of an id. */
    method NextPeerID() returns (id: int)
      requires Valid()
      modifies `nextID
      ensures Valid() && (id == -1 <==> |activeIDs| == MAX_ACTIVE_IDS)
      ensures id != -1 ==> 0 < id < WRAP && id !in activeIDs && nextID == (id + 1) % WRAP
      ensures id != -1 ==> forall x | 0 <= x < WRAP && x !in activeIDs ::
        Distance(old(nextID), id) <= Distance(old(nextID), x)
    {
      if |activeIDs| == MAX_ACTIVE_IDS { return -1; }
      ghost var free := FreeID(activeIDs);
      while nextID in activeIDs
        invariant 0 <= nextID < WRAP
        invariant forall x | 0 <= x < WRAP && x !in activeIDs ::
          Distance(old(nextID), x) == Distance(old(nextID), nextID) + Distance(nextID, x)
        decreases Distance(nextID, free)
      {
        nextID := (nextID + 1) % WRAP;
      }
      id := nextID;
      nextID := (nextID + 1) % WRAP;
    }

    method ReserveForPeer(peer: Peer) returns (ok: bool)
      requires Valid()
      modifies this
      ensures Valid() && ok == (|old(activeIDs)| != MAX_ACTIVE_IDS)
      ensures !ok ==> peerMap == old(peerMap) && activeIDs == old(activeIDs)
      ensures ok ==> peer in peerMap && peerMap == old(peerMap)[peer := peerMap[peer]]
      ensures ok ==> peerMap[peer] !in old(activeIDs) && activeIDs == old(activeIDs) + {peerMap[peer]}
    {
      var curID := NextPeerID();
      if curID == -1 { return false; }
      peerMap := peerMap[peer := curID];
      activeIDs := activeIDs + {curID};
      ok := true;
    }

    method Reclaim(peer: Peer)
      requires Valid()
      modifies this
      ensures Valid() && peerMap == old(peerMap) - {peer}
      ensures activeIDs == old(activeIDs) - if peer in old(peerMap) then {old(peerMap)[peer]} else {}
    {
      if peer in peerMap {
        activeIDs := activeIDs - {peerMap[peer]};
        peerMap := peerMap - {peer};
      }
    }
  }
}
