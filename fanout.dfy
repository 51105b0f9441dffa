/**
 * The three-tier referral summary as a function of the store: level 1 counts
 * a customer's direct referrals, level 2 sums their direct-referral counts,
 * and level 3 sums the direct-referral counts of every level-2 node.
 */
module Fanout {

  import opened ReferralModel
  import opened ReferralStore

  /** The sum, over `nodes`, of each node's number of direct referrals. */
  function SumDirect(store: seq<ReferralRecord>, nodes: seq<ReferralRecord>): nat
  {
    if nodes == [] then 0
    else |ChildrenOf(store, nodes[0].customerId)| + SumDirect(store, nodes[1..])
  }

  /** The children of `nodes`, node after node, in the order the nested loops visit them. */
  function NextLevel(store: seq<ReferralRecord>, nodes: seq<ReferralRecord>): (next: seq<ReferralRecord>)
    ensures |next| == SumDirect(store, nodes)
  {
    if nodes == [] then []
    else ChildrenOf(store, nodes[0].customerId) + NextLevel(store, nodes[1..])
  }

  /** Visiting one more node adds its direct referrals to the sum. */
  lemma {:induction false} SumDirectSnoc(store: seq<ReferralRecord>, nodes: seq<ReferralRecord>, n: ReferralRecord)
    ensures SumDirect(store, nodes + [n]) == SumDirect(store, nodes) + |ChildrenOf(store, n.customerId)|
  {
    if nodes == [] {
      assert [n][1..] == [];
    } else {
      assert (nodes + [n])[1..] == nodes[1..] + [n];
      SumDirectSnoc(store, nodes[1..], n);
    }
  }

  /** Visiting one more node appends its direct referrals to the next level. */
  lemma {:induction false} NextLevelSnoc(store: seq<ReferralRecord>, nodes: seq<ReferralRecord>, n: ReferralRecord)
    ensures NextLevel(store, nodes + [n]) == NextLevel(store, nodes) + ChildrenOf(store, n.customerId)
  {
    if nodes == [] {
      assert [n][1..] == [];
    } else {
      assert (nodes + [n])[1..] == nodes[1..] + [n];
      NextLevelSnoc(store, nodes[1..], n);
    }
  }

  /** A prefix one longer is the shorter prefix plus the next node. */
  lemma PrefixSnoc(nodes: seq<ReferralRecord>, k: nat)
    requires k < |nodes|
    ensures nodes[..k + 1] == nodes[..k] + [nodes[k]]
  {
  }

  /** The summary `getCustomerReferralSummary` computes for `id`. */
  function Summary(store: seq<ReferralRecord>, id: string): (s: CustomerReferrals)
    ensures s.numFirstLevelReferrals == 0 ==> s.numSecondLevelReferrals == 0
    ensures s.numSecondLevelReferrals == 0 ==> s.numThirdLevelReferrals == 0
  {
    var level1 := ChildrenOf(store, id);
    CustomerReferrals(|level1|, SumDirect(store, level1), SumDirect(store, NextLevel(store, level1)))
  }

  /** Level 1 is the number of stored records whose referrer is the customer. */
  lemma Level1CountsReferredRecords(store: seq<ReferralRecord>, id: string)
    ensures Summary(store, id).numFirstLevelReferrals == multiset(ReferrerIds(store))[id]
  {
    ChildCountIsReferrerCount(store, id);
  }

  /** The next level holds exactly the stored records referred by one of `nodes`. */
  lemma {:induction false} NextLevelExactly(store: seq<ReferralRecord>, nodes: seq<ReferralRecord>)
    ensures forall g :: g in NextLevel(store, nodes)
                    <==> g in store && exists n :: n in nodes && n.customerId == g.referrerId
  {
    if nodes != [] {
      NextLevelExactly(store, nodes[1..]);
      ChildrenOfExactly(store, nodes[0].customerId);
      assert nodes == [nodes[0]] + nodes[1..];
    }
  }

  /**
   * Level 2 counts the level-2 nodes the nested loop visits, and those are
   * exactly the stored records whose referrer was referred by the customer.
   */
  lemma Level2CountsGrandchildren(store: seq<ReferralRecord>, id: string)
    ensures Summary(store, id).numSecondLevelReferrals == |NextLevel(store, ChildrenOf(store, id))|
    ensures forall g :: g in NextLevel(store, ChildrenOf(store, id))
                    <==> g in store && exists c :: c in store && c.referrerId == id && c.customerId == g.referrerId
  {
    NextLevelExactly(store, ChildrenOf(store, id));
    ChildrenOfExactly(store, id);
  }

  /** A sum of direct-referral counts is zero exactly when no node has a direct referral. */
  lemma {:induction false} SumDirectZero(store: seq<ReferralRecord>, nodes: seq<ReferralRecord>)
    ensures SumDirect(store, nodes) == 0
        <==> forall n :: n in nodes ==> ChildrenOf(store, n.customerId) == []
  {
    if nodes != [] {
      SumDirectZero(store, nodes[1..]);
      assert nodes == [nodes[0]] + nodes[1..];
    }
  }

  /** A customer nobody names as referrer, an unknown id included, has an all-zero summary. */
  lemma UnreferredSummaryIsZero(store: seq<ReferralRecord>, id: string)
    requires forall r :: r in store ==> r.referrerId != id
    ensures Summary(store, id) == CustomerReferrals(0, 0, 0)
  {
    ChildrenOfExactly(store, id);
  }

  /** The records of `[r]` that name `id` as referrer. */
  function Pick(r: ReferralRecord, id: string): seq<ReferralRecord> {
    if r.referrerId == id then [r] else []
  }

  /** `ChildrenOf` over a store of one, two, three and four records. */
  lemma ChildrenOfOne(r0: ReferralRecord, id: string)
    ensures ChildrenOf([r0], id) == Pick(r0, id)
  {
    assert [r0][1..] == [];
  }

  lemma ChildrenOfTwo(r0: ReferralRecord, r1: ReferralRecord, id: string)
    ensures ChildrenOf([r0, r1], id) == Pick(r0, id) + Pick(r1, id)
  {
    ChildrenOfOne(r0, id);
    ChildrenOfAppend([r0], r1, id);
    assert [r0] + [r1] == [r0, r1];
  }

  lemma ChildrenOfThree(r0: ReferralRecord, r1: ReferralRecord, r2: ReferralRecord, id: string)
    ensures ChildrenOf([r0, r1, r2], id) == Pick(r0, id) + Pick(r1, id) + Pick(r2, id)
  {
    ChildrenOfTwo(r0, r1, id);
    ChildrenOfAppend([r0, r1], r2, id);
    assert [r0, r1] + [r2] == [r0, r1, r2];
  }

  lemma ChildrenOfFour(r0: ReferralRecord, r1: ReferralRecord, r2: ReferralRecord, r3: ReferralRecord, id: string)
    ensures ChildrenOf([r0, r1, r2, r3], id) == Pick(r0, id) + Pick(r1, id) + Pick(r2, id) + Pick(r3, id)
  {
    ChildrenOfThree(r0, r1, r2, id);
    ChildrenOfAppend([r0, r1, r2], r3, id);
    assert [r0, r1, r2] + [r3] == [r0, r1, r2, r3];
  }

  /** A chain root -> A -> B -> C gives one referral on every tier. */
  lemma ChainSummary()
    ensures Summary([ReferralRecord("root", ""), ReferralRecord("A", "root"),
                     ReferralRecord("B", "A"), ReferralRecord("C", "B")], "root")
         == CustomerReferrals(1, 1, 1)
  {
    var root, a, b, c := ReferralRecord("root", ""), ReferralRecord("A", "root"),
                         ReferralRecord("B", "A"), ReferralRecord("C", "B");
    var store := [root, a, b, c];
    ChildrenOfFour(root, a, b, c, "root");
    ChildrenOfFour(root, a, b, c, "A");
    ChildrenOfFour(root, a, b, c, "B");
    ChildrenOfFour(root, a, b, c, "C");
    assert ChildrenOf(store, "root") == [a];
    assert ChildrenOf(store, "A") == [b];
    assert ChildrenOf(store, "B") == [c];
    assert ChildrenOf(store, "C") == [];
    assert [a][1..] == [] && [b][1..] == [];
  }
}
