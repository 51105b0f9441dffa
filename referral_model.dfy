/**
 * The records and messages that the referral service exchanges.
 * Customer ids are strings; the empty string as a referrer id marks a customer
 * who joined without being referred (a root of the referral forest).
 */
module ReferralModel {

  import opened Wrappers

  /** One stored "referred-by" edge: `customerId` was referred by `referrerId`. */
  datatype ReferralRecord = ReferralRecord(customerId: string, referrerId: string)

  /** What `getDirectReferrals` hands out for each child record. */
  datatype Referral = Referral(customerId: string, referrerId: string)

  /** The body of an ingestion call; a null customer id is `None`. */
  datatype ReferralRequest = ReferralRequest(customerId: Option<string>, referrerId: string)

  /** What `addReferral` answers with. */
  datatype ReferralResponse = ReferralResponse(customerId: string, referrerId: string)

  /** A root customer and its score on the leaderboard. */
  datatype LeaderboardEntry = LeaderboardEntry(numReferrals: int, customerId: string)

  /** The three-tier referral summary of one customer. */
  datatype CustomerReferrals = CustomerReferrals(
    numFirstLevelReferrals: nat,
    numSecondLevelReferrals: nat,
    numThirdLevelReferrals: nat)

  /** The exceptions the referral service raises. */
  datatype ReferralError =
    | InvalidData       // InvalidDataException: missing request or customer id
    | ExecutionFailure  // a leaderboard task failed; rethrown as RuntimeException

  /** Converter `fromRecordToReferral`: copies both ids. */
  function ToReferral(r: ReferralRecord): (ref: Referral)
    ensures ref.customerId == r.customerId && ref.referrerId == r.referrerId
  {
    Referral(r.customerId, r.referrerId)
  }
}
