/**
 * The customer-facing service: it owns the customer repository, checks
 * referrers before a customer joins, posts one referral edge per new
 * customer, and turns referral summaries and leaderboards into bonuses and
 * display entries. The referral service client is modelled as the referral
 * service itself.
 */
module CustomerServices {

  import opened Wrappers
  import opened ReferralModel
  import opened ReferralStore
  import opened Fanout
  import opened Ranking
  import opened ReferralServices

  /** A stored customer. `referrerId` is "" for a customer who joined unreferred. */
  datatype CustomerRecord = CustomerRecord(id: string, name: string, dateCreated: string, referrerId: string)

  /** The request to create a customer; the referrer is optional. */
  datatype CreateCustomerRequest = CreateCustomerRequest(name: string, referrerId: Option<string>)

  datatype CustomerResponse = CustomerResponse(
    id: string, name: string, dateJoined: string, referrerId: string, referrerName: Option<string>)

  datatype LeaderboardUiEntry = LeaderboardUiEntry(customerId: string, customerName: string, numReferrals: int)

  /** The exceptions the customer service raises. */
  datatype ServiceError =
    | BadRequest                               // ResponseStatusException(BAD_REQUEST)
    | IllegalArgument                          // IllegalArgumentException
    | ReferralServiceFailure(cause: ReferralError)

  const FirstLevelBonus: nat := 10
  const SecondLevelBonus: nat := 3
  const ThirdLevelBonus: nat := 1

  /** The name shown for a leaderboard entry whose customer is not stored. */
  const NoNamePresent: string := "No name present"

  /** `calculateBonus`'s weighted sum of the three tiers. */
  function Bonus(s: CustomerReferrals): (b: nat)
    ensures b == 0 <==> s == CustomerReferrals(0, 0, 0)
  {
    FirstLevelBonus * s.numFirstLevelReferrals
      + SecondLevelBonus * s.numSecondLevelReferrals
      + ThirdLevelBonus * s.numThirdLevelReferrals
  }

  /** More referrals on any tier never lower the bonus. */
  lemma BonusMonotone(s: CustomerReferrals, t: CustomerReferrals)
    requires s.numFirstLevelReferrals <= t.numFirstLevelReferrals
    requires s.numSecondLevelReferrals <= t.numSecondLevelReferrals
    requires s.numThirdLevelReferrals <= t.numThirdLevelReferrals
    ensures Bonus(s) <= Bonus(t)
  {
  }

  /** `toCustomerResponseFromRecord`: the referrer's name is looked up when the referrer is stored. */
  function ToCustomerResponse(customers: map<string, CustomerRecord>, record: CustomerRecord): (r: CustomerResponse)
    ensures r.id == record.id && r.name == record.name && r.dateJoined == record.dateCreated
    ensures r.referrerId == record.referrerId
    ensures r.referrerName.Some? <==> record.referrerId != "" && record.referrerId in customers
    ensures r.referrerName.Some? ==> r.referrerName.value == customers[record.referrerId].name
  {
    var referrerName :=
      if record.referrerId != "" && record.referrerId in customers
      then Some(customers[record.referrerId].name) else None;
    CustomerResponse(record.id, record.name, record.dateCreated, record.referrerId, referrerName)
  }

  /** `toCustomerResponseFromReferral`: null when the referred customer is not stored. */
  function ReferralToResponse(customers: map<string, CustomerRecord>, referral: Referral): (r: Option<CustomerResponse>)
    ensures r.Some? <==> referral.customerId in customers
    ensures r.Some? ==> r.value == ToCustomerResponse(customers, customers[referral.customerId])
  {
    if referral.customerId in customers
    then Some(ToCustomerResponse(customers, customers[referral.customerId]))
    else None
  }

  /** The responses `getReferrals` builds from the client's reply; a null reply counts as empty. */
  function ReferralResponses(customers: map<string, CustomerRecord>, reply: Option<seq<Referral>>): (rs: seq<Option<CustomerResponse>>)
    ensures reply.None? ==> rs == []
    ensures reply.Some? ==> |rs| == |reply.value|
    ensures reply.Some? ==> forall i :: 0 <= i < |rs| ==> rs[i] == ReferralToResponse(customers, reply.value[i])
  {
    var referrals := reply.GetOr([]);
    seq(|referrals|, i requires 0 <= i < |referrals| => ReferralToResponse(customers, referrals[i]))
  }

  /** `toLeaderboardUI`: copies the id and score and looks up the name. */
  function ToLeaderboardUi(customers: map<string, CustomerRecord>, entry: LeaderboardEntry): (u: LeaderboardUiEntry)
    ensures u.customerId == entry.customerId && u.numReferrals == entry.numReferrals
    ensures entry.customerId in customers ==> u.customerName == customers[entry.customerId].name
    ensures entry.customerId !in customers ==> u.customerName == NoNamePresent
  {
    var name := if entry.customerId in customers then customers[entry.customerId].name else NoNamePresent;
    LeaderboardUiEntry(entry.customerId, name, entry.numReferrals)
  }

  /** The filter of `getLeaderboard`: the entries with a positive score, in their order. */
  function PositiveEntries(entries: seq<LeaderboardEntry>): (kept: seq<LeaderboardEntry>)
    ensures |kept| <= |entries|
    ensures forall i :: 0 <= i < |kept| ==> kept[i].numReferrals > 0
  {
    if entries == [] then []
    else if entries[0].numReferrals > 0 then [entries[0]] + PositiveEntries(entries[1..])
    else PositiveEntries(entries[1..])
  }

  /** For every score, the filter keeps all entries with that score if it is positive and none otherwise, in order. */
  lemma {:induction false} PositiveEntriesByScore(entries: seq<LeaderboardEntry>, v: int)
    ensures WithScore(PositiveEntries(entries), v) == if v > 0 then WithScore(entries, v) else []
  {
    if entries != [] {
      PositiveEntriesByScore(entries[1..], v);
      var rest := PositiveEntries(entries[1..]);
      if entries[0].numReferrals > 0 {
        assert ([entries[0]] + rest)[1..] == rest;
      }
    }
  }

  /** The filter keeps a ranked list ranked. */
  lemma PositiveEntriesNonIncreasing(entries: seq<LeaderboardEntry>)
    requires NonIncreasing(entries)
    ensures NonIncreasing(PositiveEntries(entries))
  {
    PositiveEntriesPrefix(entries);
  }

  /** The filter keeps exactly the input entries with a positive score. */
  lemma {:induction false} PositiveEntriesSubset(entries: seq<LeaderboardEntry>)
    ensures forall e :: e in PositiveEntries(entries) <==> e in entries && e.numReferrals > 0
  {
    if entries != [] {
      PositiveEntriesSubset(entries[1..]);
      assert entries == [entries[0]] + entries[1..];
    }
  }

  /** The filter keeps the input's order: filtering a concatenation filters each part. */
  lemma {:induction false} PositiveEntriesAppend(a: seq<LeaderboardEntry>, b: seq<LeaderboardEntry>)
    ensures PositiveEntries(a + b) == PositiveEntries(a) + PositiveEntries(b)
  {
    if a == [] {
      assert a + b == b;
    } else {
      assert (a + b)[1..] == a[1..] + b;
      PositiveEntriesAppend(a[1..], b);
    }
  }

  /** On a ranked list the filter keeps a prefix: the entries before the first score that is not positive. */
  lemma {:induction false} PositiveEntriesPrefix(entries: seq<LeaderboardEntry>)
    requires NonIncreasing(entries)
    ensures PositiveEntries(entries) == entries[..|PositiveEntries(entries)|]
    ensures |PositiveEntries(entries)| < |entries| ==> entries[|PositiveEntries(entries)|].numReferrals <= 0
  {
    if entries != [] {
      var rest := entries[1..];
      assert NonIncreasing(rest);
      PositiveEntriesPrefix(rest);
      if entries[0].numReferrals > 0 {
        var k := |PositiveEntries(rest)|;
        assert PositiveEntries(entries) == [entries[0]] + rest[..k];
        assert [entries[0]] + rest[..k] == entries[..k + 1];
      }
    }
  }

  /** The display form of a leaderboard: positive entries only, each with its customer's name. */
  function LeaderboardView(customers: map<string, CustomerRecord>, entries: seq<LeaderboardEntry>): (view: seq<LeaderboardUiEntry>)
    ensures |view| == |PositiveEntries(entries)|
    ensures forall i :: 0 <= i < |view| ==> view[i] == ToLeaderboardUi(customers, PositiveEntries(entries)[i])
  {
    var kept := PositiveEntries(entries);
    seq(|kept|, i requires 0 <= i < |kept| => ToLeaderboardUi(customers, kept[i]))
  }

  /**
   * The repository and the referral store describe the same forest: every
   * customer is stored under its id, its referrer is "" or a customer who
   * joined before it (`rank` is the join order, below `joined`), and the
   * referral store holds exactly one record per customer, carrying that
   * customer's referrer.
   */
  ghost predicate Forest(customers: map<string, CustomerRecord>, rank: map<string, nat>, joined: nat,
                         records: seq<ReferralRecord>)
  {
    && rank.Keys == customers.Keys
    && "" !in customers
    && JoinedInOrder(customers, rank, joined)
    && OneEdgePerCustomer(customers, records)
  }

  /** Customers are stored under their ids, and each referrer joined before the customers it referred. */
  ghost predicate JoinedInOrder(customers: map<string, CustomerRecord>, rank: map<string, nat>, joined: nat)
    requires rank.Keys == customers.Keys
  {
    forall id :: id in customers ==>
      && customers[id].id == id
      && rank[id] < joined
      && (customers[id].referrerId == ""
          || (customers[id].referrerId in customers && rank[customers[id].referrerId] < rank[id]))
  }

  /** The referral store holds one edge per customer, carrying that customer's referrer, and nothing else. */
  ghost predicate OneEdgePerCustomer(customers: map<string, CustomerRecord>, records: seq<ReferralRecord>)
  {
    && (forall rec :: rec in records ==>
          rec.customerId in customers && rec.referrerId == customers[rec.customerId].referrerId)
    && (forall id :: id in customers ==> multiset(CustomerIds(records))[id] == 1)
  }

  /** Following referrers from a stored customer ends at a stored root. */
  ghost function RootOf(customers: map<string, CustomerRecord>, rank: map<string, nat>, joined: nat,
                        records: seq<ReferralRecord>, id: string): (root: string)
    requires Forest(customers, rank, joined, records) && id in customers
    ensures root in customers && customers[root].referrerId == ""
    decreases rank[id]
  {
    var referrer := customers[id].referrerId;
    if referrer == "" then id else RootOf(customers, rank, joined, records, referrer)
  }

  /** An empty repository over an empty referral store is a forest. */
  lemma EmptyIsForest(rank: map<string, nat>, joined: nat)
    requires rank == map[]
    ensures Forest(map[], rank, joined, [])
  {
  }

  /** Every stored edge names a stored customer, or no one, as referrer. */
  lemma StoredReferrersExist(customers: map<string, CustomerRecord>, rank: map<string, nat>, joined: nat,
                             records: seq<ReferralRecord>)
    requires Forest(customers, rank, joined, records)
    ensures forall rec :: rec in records ==> rec.referrerId == "" || rec.referrerId in customers
  {
  }

  /** The roots the referral store lists are exactly the edges of the customers who joined unreferred. */
  lemma RootsAreUnreferredCustomers(customers: map<string, CustomerRecord>, rank: map<string, nat>, joined: nat,
                                    records: seq<ReferralRecord>)
    requires Forest(customers, rank, joined, records)
    ensures forall id :: ReferralRecord(id, "") in Roots(records) <==> id in customers && customers[id].referrerId == ""
  {
    RootsExactly(records);
    forall id | id in customers && customers[id].referrerId == ""
      ensures ReferralRecord(id, "") in records
    {
      assert id in multiset(CustomerIds(records));
      var i :| 0 <= i < |records| && CustomerIds(records)[i] == id;
      assert records[i] == ReferralRecord(id, "");
    }
  }

  /** Adding a fresh customer whose referrer is "" or stored, with its one edge, keeps the forest. */
  lemma AddKeepsForest(customers: map<string, CustomerRecord>, rank: map<string, nat>, joined: nat,
                       records: seq<ReferralRecord>, record: CustomerRecord)
    requires Forest(customers, rank, joined, records)
    requires record.id != "" && record.id !in customers
    requires record.referrerId == "" || record.referrerId in customers
    ensures Forest(customers[record.id := record], rank[record.id := joined], joined + 1,
                   records + [ReferralRecord(record.id, record.referrerId)])
  {
    AddKeepsJoinOrder(customers, rank, joined, record);
    AddKeepsOneEdge(customers, records, record);
  }

  lemma AddKeepsJoinOrder(customers: map<string, CustomerRecord>, rank: map<string, nat>, joined: nat,
                          record: CustomerRecord)
    requires rank.Keys == customers.Keys && JoinedInOrder(customers, rank, joined)
    requires record.id !in customers
    requires record.referrerId == "" || record.referrerId in customers
    ensures JoinedInOrder(customers[record.id := record], rank[record.id := joined], joined + 1)
  {
    var customers', rank' := customers[record.id := record], rank[record.id := joined];
    forall id | id in customers'
      ensures customers'[id].id == id && rank'[id] < joined + 1
      ensures customers'[id].referrerId == ""
              || (customers'[id].referrerId in customers' && rank'[customers'[id].referrerId] < rank'[id])
    {
      if id != record.id {
        assert customers'[id] == customers[id] && rank'[id] == rank[id];
      }
    }
  }

  lemma AddKeepsOneEdge(customers: map<string, CustomerRecord>, records: seq<ReferralRecord>, record: CustomerRecord)
    requires OneEdgePerCustomer(customers, records)
    requires record.id !in customers
    ensures OneEdgePerCustomer(customers[record.id := record], records + [ReferralRecord(record.id, record.referrerId)])
  {
    var newId := record.id;
    var edge := ReferralRecord(newId, record.referrerId);
    var customers', records' := customers[newId := record], records + [edge];
    forall rec | rec in records'
      ensures rec.customerId in customers' && rec.referrerId == customers'[rec.customerId].referrerId
    {
      if rec != edge {
        assert rec in records;
      }
    }
    CustomerIdsAppend(records, edge);
    assert multiset(CustomerIds(records))[newId] == 0;
    forall id | id in customers' ensures multiset(CustomerIds(records'))[id] == 1 {
      if id != newId {
        assert multiset(CustomerIds(records'))[id] == multiset(CustomerIds(records))[id];
      }
    }
  }

  /** Renaming a stored customer keeps the forest. */
  lemma RenameKeepsForest(customers: map<string, CustomerRecord>, rank: map<string, nat>, joined: nat,
                          records: seq<ReferralRecord>, id: string, name: string)
    requires Forest(customers, rank, joined, records) && id in customers
    ensures Forest(customers[id := customers[id].(name := name)], rank, joined, records)
  {
    var customers' := customers[id := customers[id].(name := name)];
    assert customers'.Keys == customers.Keys;
    forall k | k in customers'
      ensures customers'[k].id == customers[k].id && customers'[k].referrerId == customers[k].referrerId
    {
    }
    assert JoinedInOrder(customers', rank, joined);
    assert OneEdgePerCustomer(customers', records);
  }

  class CustomerService {

    /** The customer repository, by id. */
    var customers: map<string, CustomerRecord>

    /** The referral service the client talks to. */
    const referrals: ReferralService

    /** The order in which customers joined; a referrer always joined first. */
    ghost var rank: map<string, nat>
    ghost var joined: nat

    ghost predicate Valid()
      reads this, referrals
    {
      Forest(customers, rank, joined, referrals.records)
    }

    /**
     * Starts over the given repository and referral service. `rank` and
     * `joined` describe the order in which the stored customers joined;
     * when the repository and the store already form a forest in that
     * order (an empty start always does), the service is valid.
     */
    constructor (customers: map<string, CustomerRecord>, referrals: ReferralService,
                 ghost rank: map<string, nat>, ghost joined: nat)
      ensures this.customers == customers && this.referrals == referrals
      ensures this.rank == rank && this.joined == joined
      ensures Forest(customers, rank, joined, referrals.records) ==> Valid()
    {
      this.referrals := referrals;
      this.customers := customers;
      this.rank := rank;
      this.joined := joined;
    }

    /**
     * `addNewCustomer`: a named referrer must already be a customer;
     * otherwise the customer is saved with referrer "" or the given one,
     * and exactly one referral edge is posted. `newId` stands for the fresh
     * random id and `now` for the creation time.
     */
    method AddNewCustomer(request: CreateCustomerRequest, newId: string, now: string)
      returns (r: Result<CustomerResponse, ServiceError>)
      requires Valid()
      requires newId != "" && newId !in customers
      modifies this, referrals
      ensures Valid()
      ensures var referrerId := request.referrerId.GetOr("");
              referrerId != "" && referrerId !in old(customers) ==>
                && r == Failure(BadRequest)
                && customers == old(customers)
                && referrals.records == old(referrals.records)
      ensures var referrerId := request.referrerId.GetOr("");
              var record := CustomerRecord(newId, request.name, now, referrerId);
              referrerId == "" || referrerId in old(customers) ==>
                && customers == old(customers)[newId := record]
                && referrals.records == old(referrals.records) + [ReferralRecord(newId, referrerId)]
                && r == Success(ToCustomerResponse(customers, record))
    {
      var record := CustomerRecord(newId, request.name, now, request.referrerId.GetOr(""));
      if record.referrerId != "" && record.referrerId !in customers {
        return Failure(BadRequest);
      }
      var referralRequest := ReferralRequest(Some(record.id), record.referrerId);
      AddKeepsForest(customers, rank, joined, referrals.records, record);
      customers := customers[newId := record];
      rank := rank[newId := joined];
      joined := joined + 1;
      var _ := referrals.AddReferral(Some(referralRequest));
      r := Success(ToCustomerResponse(customers, record));
    }

    /** `updateCustomer`: renames a stored customer; an unknown id changes nothing. */
    method UpdateCustomer(customerId: string, customerName: string) returns (r: Result<CustomerResponse, ServiceError>)
      requires Valid()
      modifies this
      ensures Valid() && rank == old(rank)
      ensures customerId !in old(customers) ==> r == Failure(BadRequest) && customers == old(customers)
      ensures customerId in old(customers) ==>
                && customers == old(customers)[customerId := old(customers)[customerId].(name := customerName)]
                && r == Success(ToCustomerResponse(customers, customers[customerId]))
    {
      if customerId !in customers {
        return Failure(BadRequest);
      }
      RenameKeepsForest(customers, rank, joined, referrals.records, customerId, customerName);
      var record := customers[customerId].(name := customerName);
      customers := customers[customerId := record];
      r := Success(ToCustomerResponse(customers, record));
    }

    /** `calculateBonus`: the weighted sum of the customer's referral summary. */
    method CalculateBonus(customerId: string) returns (bonus: nat)
      ensures bonus == Bonus(Summary(referrals.records, customerId))
      ensures bonus >= FirstLevelBonus * multiset(ReferrerIds(referrals.records))[customerId]
    {
      var summary := referrals.GetCustomerReferralSummary(customerId);
      Level1CountsReferredRecords(referrals.records, customerId);
      bonus := Bonus(summary);
    }

    /** `getReferrals`: fails for an unknown customer, else one response per direct referral. */
    method GetReferrals(customerId: string) returns (r: Result<seq<Option<CustomerResponse>>, ServiceError>)
      ensures customerId !in customers ==> r == Failure(IllegalArgument)
      ensures customerId in customers ==>
                r == Success(ReferralResponses(customers, Some(DirectReferrals(referrals.records, customerId))))
    {
      if customerId !in customers {
        return Failure(IllegalArgument);
      }
      var reply := Some(DirectReferrals(referrals.records, customerId));
      r := Success(ReferralResponses(customers, reply));
    }

    /** `getLeaderboard`: the referral leaderboard without zero scores, with names. */
    method GetLeaderboard(failed: set<nat>) returns (r: Result<seq<LeaderboardUiEntry>, ServiceError>)
      ensures r.Failure? <==> exists k :: k in failed && k < |Roots(referrals.records)|
      ensures r.Success? ==> r.value == LeaderboardView(customers, Rank(RootScores(referrals.records)))
    {
      var leaderboard := referrals.GetReferralLeaderboard(failed);
      if leaderboard.Failure? {
        return Failure(ReferralServiceFailure(leaderboard.error));
      }
      r := Success(LeaderboardView(customers, leaderboard.value));
    }
  }
}
