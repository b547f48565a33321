/** Weighted voter sets and the arithmetic of "+2/3".
    A voter set is the list of addresses and voting weights that consensus
    takes from the state at one height. */
module Quorum {

  datatype Voter = Voter(address: nat, weight: nat)

  type VoterSet = seq<Voter>

  ghost predicate Distinct(voters: VoterSet) {
    forall i, j | 0 <= i < j < |voters| :: voters[i].address != voters[j].address
  }

  predicate HasAddress(voters: VoterSet, a: nat) {
    exists i | 0 <= i < |voters| :: voters[i].address == a
  }

  /** The weight of one address; 0 if it is not a voter. */
  function WeightAt(voters: VoterSet, a: nat): nat {
    if voters == [] then 0
    else if voters[|voters| - 1].address == a then voters[|voters| - 1].weight
    else WeightAt(voters[..|voters| - 1], a)
  }

  /** The joint weight of a set of addresses. */
  function WeightOf(voters: VoterSet, s: set<nat>): nat {
    if voters == [] then 0
    else
      WeightOf(voters[..|voters| - 1], s) +
      if voters[|voters| - 1].address in s then voters[|voters| - 1].weight else 0
  }

  function TotalWeight(voters: VoterSet): nat {
    if voters == [] then 0
    else TotalWeight(voters[..|voters| - 1]) + voters[|voters| - 1].weight
  }

  /** The threshold as the code computes it, with truncating division. */
  function QuorumWeight(voters: VoterSet): nat {
    TotalWeight(voters) * 2 / 3 + 1
  }

  ghost predicate TwoThirds(voters: VoterSet, s: set<nat>) {
    3 * WeightOf(voters, s) > 2 * TotalWeight(voters)
  }

  ghost predicate LessThanThird(voters: VoterSet, s: set<nat>) {
    3 * WeightOf(voters, s) < TotalWeight(voters)
  }

  lemma {:induction false} WeightMonotone(voters: VoterSet, s: set<nat>, t: set<nat>)
    requires s <= t
    ensures WeightOf(voters, s) <= WeightOf(voters, t) <= TotalWeight(voters)
  {
    if voters != [] {
      WeightMonotone(voters[..|voters| - 1], s, t);
    }
  }

  /** The weight of some is all there is exactly if nobody of any weight is missing. */
  lemma {:induction false} WeightOfAll(voters: VoterSet, s: set<nat>)
    ensures WeightOf(voters, s) == TotalWeight(voters) <==> forall v | v in voters && v.weight > 0 :: v.address in s
  {
    if voters != [] {
      var front, last := voters[..|voters| - 1], voters[|voters| - 1];
      WeightOfAll(front, s);
      WeightMonotone(front, s, s);
      assert voters == front + [last];
      assert forall v :: v in voters <==> v in front || v == last;
    }
  }

  lemma {:induction false} WeightOfAbsent(voters: VoterSet, s: set<nat>, a: nat)
    requires !HasAddress(voters, a)
    ensures WeightOf(voters, s + {a}) == WeightOf(voters, s) && WeightAt(voters, a) == 0
  {
    if voters != [] {
      var init := voters[..|voters| - 1];
      assert forall i | 0 <= i < |init| :: init[i] == voters[i];
      WeightOfAbsent(init, s, a);
    }
  }

  /** Adding one new address adds exactly its weight. */
  lemma {:induction false} WeightInsert(voters: VoterSet, s: set<nat>, a: nat)
    requires Distinct(voters) && a !in s
    ensures WeightOf(voters, s + {a}) == WeightOf(voters, s) + WeightAt(voters, a)
  {
    if voters != [] {
      var init, last := voters[..|voters| - 1], voters[|voters| - 1];
      if last.address == a {
        WeightOfAbsent(init, s, a);
      } else {
        WeightInsert(init, s, a);
      }
    }
  }

  lemma {:induction false} WeightOverlap(voters: VoterSet, s: set<nat>, t: set<nat>, u: set<nat>)
    requires s * t <= u
    ensures WeightOf(voters, s) + WeightOf(voters, t) <= TotalWeight(voters) + WeightOf(voters, u)
  {
    if voters != [] {
      WeightOverlap(voters[..|voters| - 1], s, t, u);
      var a := voters[|voters| - 1].address;
      assert a in s && a in t ==> a in s * t;
    }
  }

  /** The integer test of the code is the real-valued "+2/3". */
  lemma QuorumWeightMeaning(voters: VoterSet, w: nat)
    ensures QuorumWeight(voters) <= w <==> 3 * w > 2 * TotalWeight(voters)
    ensures w > TotalWeight(voters) * 2 / 3 <==> 3 * w > 2 * TotalWeight(voters)
  {
  }

  /** Two quorums share a voter outside any set that weighs less than a third. */
  lemma QuorumsIntersect(voters: VoterSet, s: set<nat>, t: set<nat>, faulty: set<nat>)
    returns (a: nat)
    requires TwoThirds(voters, s) && TwoThirds(voters, t) && LessThanThird(voters, faulty)
    ensures a in s && a in t && a !in faulty
  {
    if s * t <= faulty {
      WeightOverlap(voters, s, t, faulty);
      assert false;
    }
    assert exists x :: x in s * t && x !in faulty;
    a :| a in s * t && a !in faulty;
  }
}
