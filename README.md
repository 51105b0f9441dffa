# Referral graph of the MLM marketing system

This project models the referral-graph core of the Kenzie MLM system and proves properties about it.
Customers form a forest through "referred-by" edges. The referral service stores one edge per customer, as the pair (customer id, referrer id). The referrer id `""` marks a customer who joined unreferred, a root of the forest. From this store the service computes:

- a customer's three-tier referral summary,
- the direct referrals of a customer,
- a top-5 leaderboard of root customers, ranked by their direct referrals.

It also accepts new edges. The customer service in front of it does four things:

- it only lets a customer join when the named referrer already exists;
- it posts exactly one edge per new customer;
- it turns a summary into a bonus of 10, 3 and 1 per referral on tiers 1, 2 and 3;
- it shows the leaderboard without zero scores, with customer names.

Modules, one per file:

- `Wrappers` (`wrappers.dfy`): `Option` and `Result`.
- `ReferralModel` (`referral_model.dfy`): the records and messages: `ReferralRecord`, `Referral`, `ReferralRequest`, `ReferralResponse`, `LeaderboardEntry`, `CustomerReferrals`, and the service's exceptions.
- `ReferralStore` (`referral_store.dfy`): the referral DAO as a sequence of records.
  - `findByReferrerId` is the order-preserving filter `ChildrenOf`.
  - `findUsersWithoutReferrerId` is `Roots`.
- `Fanout` (`fanout.dfy`): the specification of the three-tier summary, `Summary`, and its lemmas.
- `Ranking` (`ranking.dfy`): the stream's `sorted(comparator.reversed()).limit(5)`. It is a stable descending insertion sort, `SortDescending`, cut to five entries, `Rank`.
- `ReferralServices` (`referral_service.dfy`): the class `ReferralService`, whose field `records` is the DAO's store. Its methods:
  - `GetCustomerReferralSummary`: the nested loops.
  - `GetReferralLeaderboard` and `CondensedList`: the task loop and the join.
  - `AddReferral`: the guarded write.

  The module also holds the pure `ReferralTask.Call` and `DirectReferrals`.
- `CustomerServices` (`customer_service.dfy`): the class `CustomerService`, whose field `customers` is the repository, a map from id to record.
  - The referral service client is the `ReferralService` object itself.
  - The ghost join order `rank` carries the forest invariant `Valid()`: every referrer is a customer who joined earlier, and the store holds exactly one edge per customer with that customer's referrer.

## Model

Source paths are relative to the repository root.

| member | source | states |
|---|---|---|
| ReferralStore.ChildrenOf | ReferralServiceLambda/src/main/java/com/kenzie/marketing/referral/service/ReferralService.java:73 | `findByReferrerId(id)` (also at lines 79, 81 and 92), the store filtered on referrer `id` in store order: never more records than are stored (its members and count are pinned down by the next rows) |
| ReferralStore.ChildrenOfNamesReferrer | ReferralServiceLambda/src/main/java/com/kenzie/marketing/referral/service/ReferralService.java:73 | `findByReferrerId(id)`: every returned record, position by position, names `id` as referrer |
| ReferralStore.ChildrenOfExactly | ReferralServiceLambda/src/main/java/com/kenzie/marketing/referral/service/ReferralService.java:73 | a record is among the children of `id` exactly when it is stored and names `id` as referrer |
| ReferralStore.Roots | ReferralServiceLambda/src/main/java/com/kenzie/marketing/referral/service/ReferralService.java:42 | `findUsersWithoutReferrerId()`: the children of `""`, never more records than are stored |
| ReferralStore.RootsExactly | ReferralServiceLambda/src/main/java/com/kenzie/marketing/referral/service/ReferralService.java:42 | `findUsersWithoutReferrerId()` returns exactly the stored records whose referrer is `""` |
| ReferralStore.ChildCountIsReferrerCount | ReferralServiceLambda/src/main/java/com/kenzie/marketing/referral/service/ReferralService.java:73 | the number of children of `id` is the number of stored records whose referrer id is `id` |
| ReferralStore.ChildrenOfAppend | ReferralServiceLambda/src/main/java/com/kenzie/marketing/referral/service/ReferralService.java:107 | storing one record adds it at the end of its referrer's children and changes no other customer's children |
| Fanout.Summary | ReferralServiceLambda/src/main/java/com/kenzie/marketing/referral/service/ReferralService.java:71-88 | the value `getCustomerReferralSummary` returns: (children, sum of their direct counts, sum over every level-2 node of its direct count); level 2 is 0 when level 1 is 0, and level 3 is 0 when level 2 is 0 |
| Fanout.NextLevel | ReferralServiceLambda/src/main/java/com/kenzie/marketing/referral/service/ReferralService.java:79-80 | the nodes visited at the next level are as many as the sum of the direct-referral counts of the current level |
| Fanout.NextLevelExactly | ReferralServiceLambda/src/main/java/com/kenzie/marketing/referral/service/ReferralService.java:79-80 | a record is in the next level exactly when it is stored and its referrer is one of the current nodes |
| Fanout.SumDirectSnoc | ReferralServiceLambda/src/main/java/com/kenzie/marketing/referral/service/ReferralService.java:77-81 | visiting one more node adds its direct-referral count to the running sum |
| Fanout.NextLevelSnoc | ReferralServiceLambda/src/main/java/com/kenzie/marketing/referral/service/ReferralService.java:79 | visiting one more node appends its children to the next level |
| Fanout.Level1CountsReferredRecords | ReferralServiceLambda/src/main/java/com/kenzie/marketing/referral/service/ReferralService.java:73-78 | level 1 of the summary is the number of stored records whose referrer is the customer |
| Fanout.Level2CountsGrandchildren | ReferralServiceLambda/src/main/java/com/kenzie/marketing/referral/service/ReferralService.java:79-80 | level 2 is the number of level-2 nodes, and these are exactly the stored records whose referrer was referred by the customer |
| Fanout.SumDirectZero | ReferralServiceLambda/src/main/java/com/kenzie/marketing/referral/service/ReferralService.java:81 | a sum of direct-referral counts is zero if and only if none of the nodes has a referral |
| Fanout.UnreferredSummaryIsZero | ReferralServiceLambda/src/main/java/com/kenzie/marketing/referral/service/ReferralService.java:72-87 | a customer nobody names as referrer, an unknown id included, gets the summary (0, 0, 0) |
| Fanout.ChainSummary | ReferralServiceLambda/src/main/java/com/kenzie/marketing/referral/service/ReferralService.java:71-88 | for the chain root, A, B, C, the root's summary is (1, 1, 1): level 3 counts B's child C |
| Ranking.WithScoreAppend | ReferralServiceLambda/src/main/java/com/kenzie/marketing/referral/service/ReferralService.java:66-67 | the entries with a given score in a concatenation are those of each part, in order |
| Ranking.WithScoreCons | ReferralServiceLambda/src/main/java/com/kenzie/marketing/referral/service/ReferralService.java:66-67 | the entries with a given score in a sequence headed by `x` are `x`, if it has that score, followed by those of the rest |
| Ranking.Insert | ReferralServiceLambda/src/main/java/com/kenzie/marketing/referral/service/ReferralService.java:67 | one insertion step of the stable descending sort grows the sequence by exactly one entry |
| Ranking.InsertPermutes | ReferralServiceLambda/src/main/java/com/kenzie/marketing/referral/service/ReferralService.java:67 | an insertion step adds exactly the inserted entry and loses none |
| Ranking.InsertNonIncreasing | ReferralServiceLambda/src/main/java/com/kenzie/marketing/referral/service/ReferralService.java:67 | inserting into a ranked sequence keeps it ranked |
| Ranking.InsertWithScore | ReferralServiceLambda/src/main/java/com/kenzie/marketing/referral/service/ReferralService.java:67 | the inserted entry comes before every entry with the same score |
| Ranking.SortDescending | ReferralServiceLambda/src/main/java/com/kenzie/marketing/referral/service/ReferralService.java:66-67 | the sort keeps the number of entries |
| Ranking.SortDescendingNonIncreasing | ReferralServiceLambda/src/main/java/com/kenzie/marketing/referral/service/ReferralService.java:67 | the sorted entries are non-increasing in number of referrals |
| Ranking.SortDescendingPermutes | ReferralServiceLambda/src/main/java/com/kenzie/marketing/referral/service/ReferralService.java:66-67 | the sorted entries are a permutation of the input |
| Ranking.SortDescendingStable | ReferralServiceLambda/src/main/java/com/kenzie/marketing/referral/service/ReferralService.java:66-67 | the sort is stable: for every score, the entries with that score keep their input order |
| Ranking.Rank | ReferralServiceLambda/src/main/java/com/kenzie/marketing/referral/service/ReferralService.java:66-68 | `sorted(...).limit(5)` has exactly min(5, n) entries |
| Ranking.RankNonIncreasing | ReferralServiceLambda/src/main/java/com/kenzie/marketing/referral/service/ReferralService.java:66-68 | the leaderboard is non-increasing in number of referrals |
| Ranking.RankSplit | ReferralServiceLambda/src/main/java/com/kenzie/marketing/referral/service/ReferralService.java:67 | the sorted entries are the kept ones followed by the dropped ones, and together they are the input |
| Ranking.RankIsSubMultiset | ReferralServiceLambda/src/main/java/com/kenzie/marketing/referral/service/ReferralService.java:66-68 | every leaderboard entry is an input entry, taken at most as often as it occurs |
| Ranking.TailScoresNoMore | ReferralServiceLambda/src/main/java/com/kenzie/marketing/referral/service/ReferralService.java:67 | in a ranked sequence, nothing past a cut scores more than the entry just before the cut |
| Ranking.RankKeepsBest | ReferralServiceLambda/src/main/java/com/kenzie/marketing/referral/service/ReferralService.java:66-68 | every entry the limit drops scores no more than the last entry kept |
| Ranking.RankKeepsTieOrder | ReferralServiceLambda/src/main/java/com/kenzie/marketing/referral/service/ReferralService.java:66-68 | for every score, the kept entries with that score are the first of the input's entries with that score, in input order |
| Ranking.SortExampleTail3 | ReferralServiceLambda/src/main/java/com/kenzie/marketing/referral/service/ReferralService.java:67 | scores 0, 5, 5 sort as 5, 5, 0, with the tied fives in input order |
| Ranking.SortExampleTail5 | ReferralServiceLambda/src/main/java/com/kenzie/marketing/referral/service/ReferralService.java:67 | scores 3, 9, 0, 5, 5 sort as 9, 5, 5, 3, 0 |
| Ranking.RankExample | ReferralServiceLambda/src/main/java/com/kenzie/marketing/referral/service/ReferralService.java:66-68 | roots scoring 7, 3, 9, 0, 5, 5 rank as 9, 7, 5, 5, 3 (fives in root order); only the 0 is dropped |
| ReferralModel.ToReferral | ReferralServiceLambda/src/main/java/com/kenzie/marketing/referral/service/ReferralService.java:94 | `fromRecordToReferral` copies the customer id and the referrer id |
| ReferralServices.DirectReferrals | ReferralServiceLambda/src/main/java/com/kenzie/marketing/referral/service/ReferralService.java:91-95 | `getDirectReferrals`: one Referral per child record, in store order, with the child's id and the customer as referrer; as many as stored records naming the customer |
| ReferralServices.ReferralTask.Call | ReferralServiceLambda/src/main/java/com/kenzie/marketing/referral/service/task/ReferralTask.java:12-22 | the entry names the task's fixed root, and its score is the root's number of direct referrals, which is level 1 of the root's summary |
| ReferralServices.Entries | ReferralServiceLambda/src/main/java/com/kenzie/marketing/referral/service/ReferralService.java:59-61 | the results of futures that all completed, one per future, in order |
| ReferralServices.RootScores | ReferralServiceLambda/src/main/java/com/kenzie/marketing/referral/service/ReferralService.java:42-46 | one task result per root, in the order the DAO lists the roots |
| ReferralServices.SubmittedFutures | ReferralServiceLambda/src/main/java/com/kenzie/marketing/referral/service/ReferralService.java:42-47 | with one future per root failing at the positions in `failed`, some future fails exactly when a failed position names a root, and when none fails their results are the root scores |
| ReferralServices.ReferralService.constructor | ReferralServiceLambda/src/main/java/com/kenzie/marketing/referral/service/ReferralService.java:28-32 | the service starts over the given store |
| ReferralServices.ReferralService.GetReferralLeaderboard | ReferralServiceLambda/src/main/java/com/kenzie/marketing/referral/service/ReferralService.java:40-55 | fails with an execution error if and only if some root's task fails; otherwise returns the ranked entries of all roots |
| ReferralServices.ReferralService.CondensedList | ReferralServiceLambda/src/main/java/com/kenzie/marketing/referral/service/ReferralService.java:57-69 | fails if and only if some future failed; otherwise ranks the futures' results |
| ReferralServices.ReferralService.GetCustomerReferralSummary | ReferralServiceLambda/src/main/java/com/kenzie/marketing/referral/service/ReferralService.java:71-88 | the three counters the nested loops compute are the summary: level 1 the children, level 2 the sum of the children's direct counts, level 3 the sum over every level-2 node of its direct count |
| ReferralServices.ReferralService.AddReferral | ReferralServiceLambda/src/main/java/com/kenzie/marketing/referral/service/ReferralService.java:102-109 | a null request or a null or empty customer id fails with invalid data and writes nothing; otherwise exactly the one record is appended and echoed back |
| CustomerServices.Bonus | Application/src/main/java/com/kenzie/marketing/application/service/CustomerService.java:29-31 | the weighted sum 10, 3, 1 of the tiers is zero if and only if every tier is zero |
| CustomerServices.BonusMonotone | Application/src/main/java/com/kenzie/marketing/application/service/CustomerService.java:142-144 | more referrals on any tier never lower the bonus |
| CustomerServices.ToCustomerResponse | Application/src/main/java/com/kenzie/marketing/application/service/CustomerService.java:189-205 | copies id, name, date and referrer id; the referrer's name is present exactly when the referrer id is non-empty and stored, and is that customer's name |
| CustomerServices.ReferralToResponse | Application/src/main/java/com/kenzie/marketing/application/service/CustomerService.java:217-223 | null exactly when the referred customer is not stored, else the stored customer's response |
| CustomerServices.ReferralResponses | Application/src/main/java/com/kenzie/marketing/application/service/CustomerService.java:162-166 | a null reply gives no responses; otherwise one response per referral, in order |
| CustomerServices.ToLeaderboardUi | Application/src/main/java/com/kenzie/marketing/application/service/CustomerService.java:224-236 | copies id and score; the name is the stored customer's, or "No name present" when the customer is not stored |
| CustomerServices.PositiveEntries | Application/src/main/java/com/kenzie/marketing/application/service/CustomerService.java:177-178 | the filter keeps only positive scores and never lengthens the list |
| CustomerServices.PositiveEntriesByScore | Application/src/main/java/com/kenzie/marketing/application/service/CustomerService.java:177-178 | for every score, the filter keeps all entries with that score, in order, when it is positive and none when it is not |
| CustomerServices.PositiveEntriesNonIncreasing | Application/src/main/java/com/kenzie/marketing/application/service/CustomerService.java:177-178 | filtering a ranked list keeps it ranked |
| CustomerServices.PositiveEntriesSubset | Application/src/main/java/com/kenzie/marketing/application/service/CustomerService.java:177-178 | an entry is kept if and only if it is in the input and its score is positive |
| CustomerServices.PositiveEntriesAppend | Application/src/main/java/com/kenzie/marketing/application/service/CustomerService.java:177-178 | the filter keeps input order: filtering a concatenation is filtering each part and concatenating |
| CustomerServices.PositiveEntriesPrefix | Application/src/main/java/com/kenzie/marketing/application/service/CustomerService.java:177-178 | on a ranked list the filter keeps a prefix, and the first entry it drops scores 0 or less; so the displayed leaderboard is the first k ranked entries |
| CustomerServices.LeaderboardView | Application/src/main/java/com/kenzie/marketing/application/service/CustomerService.java:177-180 | one display entry per positive-score entry, in order, each with its customer's name |
| CustomerServices.RootOf | Application/src/main/java/com/kenzie/marketing/application/service/CustomerService.java:79-89 | following referrers from any stored customer ends at a stored customer with referrer "" |
| CustomerServices.StoredReferrersExist | Application/src/main/java/com/kenzie/marketing/application/service/CustomerService.java:84-90 | under the forest invariant, every stored edge names "" or a stored customer as referrer |
| CustomerServices.RootsAreUnreferredCustomers | Application/src/main/java/com/kenzie/marketing/application/service/CustomerService.java:88-90 | under the forest invariant, the roots of the referral store are exactly the edges of the customers who joined unreferred |
| CustomerServices.AddKeepsForest | Application/src/main/java/com/kenzie/marketing/application/service/CustomerService.java:84-90 | adding a fresh customer whose referrer is "" or stored, together with its one edge, keeps the forest invariant |
| CustomerServices.AddKeepsJoinOrder | Application/src/main/java/com/kenzie/marketing/application/service/CustomerService.java:84-89 | the new customer joins last and its referrer joined before it |
| CustomerServices.AddKeepsOneEdge | Application/src/main/java/com/kenzie/marketing/application/service/CustomerService.java:88-90 | appending the new customer's edge keeps exactly one edge per customer |
| CustomerServices.RenameKeepsForest | Application/src/main/java/com/kenzie/marketing/application/service/CustomerService.java:116-118 | renaming a stored customer keeps the forest invariant |
| CustomerServices.CustomerService.constructor | Application/src/main/java/com/kenzie/marketing/application/service/CustomerService.java:36-39 | the service starts over any given repository and referral service; it is valid whenever they form a forest in the given join order |
| CustomerServices.EmptyIsForest | Application/src/main/java/com/kenzie/marketing/application/service/CustomerService.java:36-39 | an empty repository over an empty referral store is a forest, so a service started empty is valid |
| CustomerServices.CustomerService.AddNewCustomer | Application/src/main/java/com/kenzie/marketing/application/service/CustomerService.java:77-104 | a non-empty referrer that is not stored fails with BAD_REQUEST and changes nothing; otherwise the customer is saved with referrer "" or the given one, exactly one edge (new id, referrer) is posted, and the forest invariant holds |
| CustomerServices.CustomerService.UpdateCustomer | Application/src/main/java/com/kenzie/marketing/application/service/CustomerService.java:111-123 | an unknown id fails with BAD_REQUEST and changes nothing; otherwise only that customer's name changes, and the invariant holds |
| CustomerServices.CustomerService.CalculateBonus | Application/src/main/java/com/kenzie/marketing/application/service/CustomerService.java:139-147 | the bonus of the customer's summary, at least 10 per stored record naming the customer as referrer |
| CustomerServices.CustomerService.GetReferrals | Application/src/main/java/com/kenzie/marketing/application/service/CustomerService.java:155-167 | an unknown customer raises IllegalArgument; otherwise one response per direct referral, in store order |
| CustomerServices.CustomerService.GetLeaderboard | Application/src/main/java/com/kenzie/marketing/application/service/CustomerService.java:173-181 | fails exactly when the referral leaderboard fails; otherwise the positive entries of the ranked root scores, with names |

## Left out

- The thread pool (`ReferralService.java:26-55`) is not modelled: task submission, `awaitTermination` and `shutdown`. The join is sequential over the roots in DAO order. A task whose `Future.get()` throws is a root position in the parameter `failed`. `awaitTermination`'s result is ignored in the code, so no timeout error exists and none is modelled.
- `ReferralTask` builds a fresh `ReferralService` (and thread pool) per task (`ReferralTask.java:17`). That is resource plumbing; `Call` reads the store directly.
- `CacheClient` (a wrapper over Redis) is not part of this model.
- The random UUID and `DateTime.now()` of `toCustomerRecord` (`CustomerService.java:210-211`) are the parameters `newId` and `now` of `AddNewCustomer`. The caller must supply an id that is non-empty and not yet stored.
- CustomerServices.Bonus: computed on `nat` rather than `Double`. The weights 10, 3 and 1 are exact, so the value agrees as long as the counts fit in a double's 53-bit mantissa.
- ReferralServices.ReferralService.GetCustomerReferralSummary: the Java counters are 32-bit `int` and could wrap; the model's counters are unbounded.
- `deleteCustomer`, `findAllCustomers` and `getCustomer` are not modelled; they pass through to the repository. `deleteCustomer` does not remove the referral edge, so it would break the forest invariant.
- The referral DAO, the converters, `ReferralComparator` and `ReferralServiceClient` are not part of this model. The DAO is a sequence of records, and `findByReferrerId` keeps store order. The converters copy the two ids. The comparator compares `numReferrals`. The client is the `ReferralService` object itself, so `GetReferrals` always sees a non-null reply. The null reply is handled only in `ReferralResponses`.
- `ReferralRequest.referrerId` is a plain string: a null referrer is not modelled, because the only caller passes `""` for an absent one (`CustomerService.java:212`).
- `addReferral` does not reject a customer id that is already stored, and `getReferralLeaderboard` raises no timeout error; the model has neither.
- The client call `referralServiceClient.addReferral` (`CustomerService.java:90`) cannot fail in the model, since the client is the `ReferralService` object and a request with a non-empty id is always accepted. In the source a failing call after `customerRepository.save` (line 89) would leave a stored customer with no referral edge; the forest invariant (one edge per customer) excludes that state and holds only under this abstraction.
- The `null` referrer case in the guard (`CustomerService.java:84`) cannot arise, since `toCustomerRecord` maps an absent referrer to `""`.
