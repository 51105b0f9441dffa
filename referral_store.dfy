/**
 * The referral DAO's queries over the stored edges. The store is the
 * sequence of records in the order the DAO returns them.
 */
module ReferralStore {

  import opened ReferralModel

  /** `findByReferrerId(id)`: the records whose referrer is `id`, in store order. */
  function ChildrenOf(store: seq<ReferralRecord>, id: string): (kids: seq<ReferralRecord>)
    ensures |kids| <= |store|
  {
    if store == [] then []
    else if store[0].referrerId == id then [store[0]] + ChildrenOf(store[1..], id)
    else ChildrenOf(store[1..], id)
  }

  /** `findUsersWithoutReferrerId()`: the records of customers nobody referred. */
  function Roots(store: seq<ReferralRecord>): (roots: seq<ReferralRecord>)
    ensures |roots| <= |store|
  {
    ChildrenOf(store, "")
  }

  /** The roots are exactly the stored records whose referrer is "". */
  lemma RootsExactly(store: seq<ReferralRecord>)
    ensures forall r :: r in Roots(store) <==> r in store && r.referrerId == ""
  {
    ChildrenOfExactly(store, "");
  }

  /** The children of `id` are exactly the stored records that name `id` as referrer. */
  lemma {:induction false} ChildrenOfExactly(store: seq<ReferralRecord>, id: string)
    ensures forall r :: r in ChildrenOf(store, id) <==> r in store && r.referrerId == id
  {
    if store != [] {
      ChildrenOfExactly(store[1..], id);
      assert store == [store[0]] + store[1..];
    }
  }

  /** Every child of `id`, position by position, names `id` as referrer. */
  lemma ChildrenOfNamesReferrer(store: seq<ReferralRecord>, id: string)
    ensures forall i :: 0 <= i < |ChildrenOf(store, id)| ==> ChildrenOf(store, id)[i].referrerId == id
  {
    ChildrenOfExactly(store, id);
    var kids := ChildrenOf(store, id);
    forall i | 0 <= i < |kids| ensures kids[i].referrerId == id {
      assert kids[i] in kids;
    }
  }

  /** The referrer ids of the store, position by position. */
  function ReferrerIds(store: seq<ReferralRecord>): (ids: seq<string>)
    ensures |ids| == |store|
    ensures forall i :: 0 <= i < |store| ==> ids[i] == store[i].referrerId
  {
    seq(|store|, i requires 0 <= i < |store| => store[i].referrerId)
  }

  /** The number of records naming `id` as referrer is the number of children the DAO returns. */
  lemma {:induction false} ChildCountIsReferrerCount(store: seq<ReferralRecord>, id: string)
    ensures |ChildrenOf(store, id)| == multiset(ReferrerIds(store))[id]
  {
    if store != [] {
      ChildCountIsReferrerCount(store[1..], id);
      assert ReferrerIds(store) == [store[0].referrerId] + ReferrerIds(store[1..]);
    }
  }

  /** Appending a record adds it to its referrer's children and to nobody else's. */
  lemma {:induction false} ChildrenOfAppend(store: seq<ReferralRecord>, r: ReferralRecord, id: string)
    ensures ChildrenOf(store + [r], id)
         == ChildrenOf(store, id) + (if r.referrerId == id then [r] else [])
  {
    if store != [] {
      assert (store + [r])[1..] == store[1..] + [r];
      ChildrenOfAppend(store[1..], r, id);
    } else {
      assert ChildrenOf([r], id) == (if r.referrerId == id then [r] else []) + ChildrenOf([], id);
    }
  }

  /** The customer ids of the store, position by position. */
  function CustomerIds(store: seq<ReferralRecord>): (ids: seq<string>)
    ensures |ids| == |store|
    ensures forall i :: 0 <= i < |store| ==> ids[i] == store[i].customerId
  {
    seq(|store|, i requires 0 <= i < |store| => store[i].customerId)
  }

  /** Appending a record adds one occurrence of its customer id. */
  lemma CustomerIdsAppend(store: seq<ReferralRecord>, r: ReferralRecord)
    ensures multiset(CustomerIds(store + [r])) == multiset(CustomerIds(store)) + multiset{r.customerId}
  {
    assert CustomerIds(store + [r]) == CustomerIds(store) + [r.customerId];
  }
}
