/**
 * The referral service: the three-tier summary, direct referrals, the
 * leaderboard of root customers and the ingestion of new edges. The
 * leaderboard task lives here too, since the service and its tasks depend
 * on each other.
 */
module ReferralServices {

  import opened Wrappers
  import opened ReferralModel
  import opened ReferralStore
  import opened Fanout
  import opened Ranking

  /** `getDirectReferrals`: one Referral per child record, in store order. */
  function DirectReferrals(store: seq<ReferralRecord>, customerId: string): (refs: seq<Referral>)
    ensures |refs| == |ChildrenOf(store, customerId)| == multiset(ReferrerIds(store))[customerId]
    ensures forall i :: 0 <= i < |refs| ==>
              refs[i].referrerId == customerId && refs[i].customerId == ChildrenOf(store, customerId)[i].customerId
  {
    var kids := ChildrenOf(store, customerId);
    ChildCountIsReferrerCount(store, customerId);
    ChildrenOfNamesReferrer(store, customerId);
    seq(|kids|, i requires 0 <= i < |kids| => ToReferral(kids[i]))
  }

  /** A leaderboard task; the root it scores is fixed when the task is built. */
  datatype ReferralTask = ReferralTask(record: ReferralRecord) {

    /**
     * `call()`: the root's id with its number of direct referrals, which is
     * level 1 of its summary (not the size of its subtree).
     */
    function Call(store: seq<ReferralRecord>): (e: LeaderboardEntry)
      ensures e.customerId == record.customerId
      ensures e.numReferrals == Summary(store, record.customerId).numFirstLevelReferrals
      ensures e.numReferrals == multiset(ReferrerIds(store))[record.customerId]
    {
      LeaderboardEntry(|DirectReferrals(store, record.customerId)|, record.customerId)
    }
  }

  /** The outcome of one submitted task, as `Future.get()` reports it. */
  datatype Future = Done(entry: LeaderboardEntry) | Failed

  /** The entries of futures that all completed. */
  function Entries(futures: seq<Future>): (entries: seq<LeaderboardEntry>)
    requires forall i :: 0 <= i < |futures| ==> futures[i].Done?
    ensures |entries| == |futures|
    ensures forall i :: 0 <= i < |futures| ==> futures[i] == Done(entries[i])
  {
    seq(|futures|, i requires 0 <= i < |futures| => futures[i].entry)
  }

  /** The entry of every root, in the order the DAO lists the roots. */
  function RootScores(store: seq<ReferralRecord>): (scores: seq<LeaderboardEntry>)
    ensures |scores| == |Roots(store)|
    ensures forall k :: 0 <= k < |scores| ==> scores[k] == ReferralTask(Roots(store)[k]).Call(store)
  {
    var roots := Roots(store);
    seq(|roots|, k requires 0 <= k < |roots| => ReferralTask(roots[k]).Call(store))
  }

  /**
   * The futures of one task per root, failing at the positions in `failed`:
   * one fails exactly when a failed position names a root, and when none
   * fails their entries are the root scores.
   */
  lemma SubmittedFutures(store: seq<ReferralRecord>, failed: set<nat>, futures: seq<Future>)
    requires |futures| == |Roots(store)|
    requires forall j :: 0 <= j < |futures| ==>
               futures[j] == (if j in failed then Failed else Done(ReferralTask(Roots(store)[j]).Call(store)))
    ensures (exists i :: 0 <= i < |futures| && futures[i].Failed?) <==> (exists k :: k in failed && k < |Roots(store)|)
    ensures (forall i :: 0 <= i < |futures| ==> futures[i].Done?) ==> Entries(futures) == RootScores(store)
  {
    if exists k :: k in failed && k < |Roots(store)| {
      var k :| k in failed && k < |Roots(store)|;
      assert futures[k].Failed?;
    }
  }

  /** A request `addReferral` accepts: present, with a non-empty customer id. */
  predicate ValidRequest(request: Option<ReferralRequest>) {
    request.Some? && request.value.customerId.Some? && request.value.customerId.value != ""
  }

  class ReferralService {

    /** The records the referral DAO holds, in the order it returns them. */
    var records: seq<ReferralRecord>

    constructor (records: seq<ReferralRecord>)
      ensures this.records == records
    {
      this.records := records;
    }

    /**
     * `getReferralLeaderboard`: one task per root; `failed` holds the
     * positions of the tasks whose store read fails. Any failure fails the
     * whole call; otherwise the ranked root entries are returned.
     */
    method GetReferralLeaderboard(failed: set<nat>) returns (r: Result<seq<LeaderboardEntry>, ReferralError>)
      ensures r.Failure? <==> exists k :: k in failed && k < |Roots(records)|
      ensures r.Failure? ==> r.error == ExecutionFailure
      ensures r.Success? ==> r.value == Rank(RootScores(records))
    {
      var store := records;
      var nodes := Roots(store);
      var futures: seq<Future> := [];
      for k := 0 to |nodes|
        invariant |futures| == k
        invariant forall j :: 0 <= j < k ==>
                    futures[j] == (if j in failed then Failed else Done(ReferralTask(nodes[j]).Call(store)))
      {
        var task := ReferralTask(nodes[k]);
        futures := futures + [if k in failed then Failed else Done(task.Call(store))];
      }
      SubmittedFutures(store, failed, futures);
      r := CondensedList(futures);
    }

    /**
     * `condensedList`: waits for every future in order, failing on the first
     * failed task, then ranks the entries.
     */
    method CondensedList(futures: seq<Future>) returns (r: Result<seq<LeaderboardEntry>, ReferralError>)
      ensures r.Failure? <==> exists i :: 0 <= i < |futures| && futures[i].Failed?
      ensures r.Failure? ==> r.error == ExecutionFailure
      ensures r.Success? ==> r.value == Rank(Entries(futures))
    {
      var entries: seq<LeaderboardEntry> := [];
      for i := 0 to |futures|
        invariant |entries| == i
        invariant forall j :: 0 <= j < i ==> futures[j] == Done(entries[j])
      {
        match futures[i]
        case Failed =>
          return Failure(ExecutionFailure);
        case Done(e) =>
          entries := entries + [e];
      }
      assert entries == Entries(futures);
      r := Success(Rank(entries));
    }

    /** `getCustomerReferralSummary`: three counters over a two-level nested loop. */
    method GetCustomerReferralSummary(customerId: string) returns (s: CustomerReferrals)
      ensures s == Summary(records, customerId)
    {
      var store := records;
      var referralRecords := ChildrenOf(store, customerId);
      var first, second, third := 0, 0, 0;
      ghost var level1: seq<ReferralRecord> := [];
      ghost var level2: seq<ReferralRecord> := [];
      for i := 0 to |referralRecords|
        invariant level1 == referralRecords[..i]
        invariant level2 == NextLevel(store, level1)
        invariant first == i
        invariant second == SumDirect(store, level1)
        invariant third == SumDirect(store, level2)
      {
        first := first + 1;
        var nextReferrals := ChildrenOf(store, referralRecords[i].customerId);
        NextLevelSnoc(store, level1, referralRecords[i]);
        SumDirectSnoc(store, level1, referralRecords[i]);
        ghost var before := level2;
        for j := 0 to |nextReferrals|
          invariant level2 == before + nextReferrals[..j]
          invariant second == SumDirect(store, level1) + j
          invariant third == SumDirect(store, level2)
        {
          second := second + 1;
          third := third + |ChildrenOf(store, nextReferrals[j].customerId)|;
          SumDirectSnoc(store, level2, nextReferrals[j]);
          PrefixSnoc(nextReferrals, j);
          level2 := level2 + [nextReferrals[j]];
        }
        assert nextReferrals[..|nextReferrals|] == nextReferrals;
        PrefixSnoc(referralRecords, i);
        level1 := level1 + [referralRecords[i]];
      }
      assert referralRecords[..|referralRecords|] == referralRecords;
      s := CustomerReferrals(first, second, third);
    }

    /**
     * `addReferral`: a missing request or an empty or missing customer id is
     * rejected before any write; otherwise exactly one record is stored.
     */
    method AddReferral(request: Option<ReferralRequest>) returns (r: Result<ReferralResponse, ReferralError>)
      modifies this
      ensures !ValidRequest(request) ==> r == Failure(InvalidData) && records == old(records)
      ensures ValidRequest(request) ==>
                var record := ReferralRecord(request.value.customerId.value, request.value.referrerId);
                && records == old(records) + [record]
                && r == Success(ReferralResponse(record.customerId, record.referrerId))
    {
      if request.None? || request.value.customerId.None? || |request.value.customerId.value| == 0 {
        return Failure(InvalidData);
      }
      var record := ReferralRecord(request.value.customerId.value, request.value.referrerId);
      records := records + [record];
      r := Success(ReferralResponse(record.customerId, record.referrerId));
    }
  }
}
