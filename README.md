# Loyalty accounts: a verified Dafny model

This project models the core of a retail loyalty-point service. It has two parts.

**The account aggregate** (`src/loyalty.rs`, module `Loyalty` in `loyalty.dfy`). An account holds:
- a point balance;
- a tier, `L1` or `L2`;
- a yearly gross turnover;
- an append-only log of `Earn` and `Burn` transactions.

Its operations are modelled on the value `AccountData` as pure functions:
- `NewAccount`, `ApplySetCard`, `ApplyCheckLevel`, `ApplyBurn` and `ApplyClose`;
- the ledger folds `EarnSum`, `BurnSum`, `GrossSum` and `BurnedPoints` (`get_burned_points`).

The class `Account` updates its fields in place, as the source does. Each of its methods is proved to reach exactly the state that the pure function describes. `SetLoyaltyLevel` and `SetBirthdate` have no such function: their new state is stated as a record update of the old one, changing only that field. The object invariant `Valid()` is the cross-field invariant `Consistent`:
- the balance is Σ Earn.amount − Σ Burn.amount over the log;
- the turnover is the sum of the gross amounts recorded by the Earn entries;
- every entry carries the account's id.

`Transaction::new` is the datatype constructor `Transaction`, taking the freshly generated id as an argument. `get_discount_percentage` is `DiscountPercentage`: the exact percentages 2 and 4.

**The account repository** (`src/main.rs`, module `Service` in `service.dfy`). The class `LoyaltyService` holds the accounts as a sequence of `Account` objects. Each service call is one atomic step. What a request does to the collection's value (`seq<AccountData>`) and what it answers is stated by a pure function `*Spec`. Each method is proved to perform exactly that `*Spec` function's update and to return its answer. The lookups are functions over the collection. The foreign collaborators are the fields of `Env`: UUID parsing, date parsing and the Luhn check on card ids.

In three places the code answers differently from what the service's error kinds would suggest. The model follows the code:
- A duplicate `customer_id` on creation is answered with `BadRequest`, not `AlreadyExists`.
- A miss in the lookups by customer id and by card id is answered with `BadRequest`, not `NotFound`.
- `burn_points` does not check the sign of the amount. A negative amount is accepted and raises the balance. The Burn entry then carries a negative amount.

## Model

| member | source | states |
|---|---|---|
| `Loyalty.DiscountPercentage` | src/loyalty.rs:234-239 | the rate is 2 % exactly for L1 and 4 % exactly for L2 (as exact percentages, not `f32` fractions) |
| `Loyalty.EarnedPoints` | src/loyalty.rs:125-127 | earned points are the level's rate (2 % for L1, 4 % for L2) of the gross, rounded to the nearest integer with halves rounded up; never negative |
| `Loyalty.LevelToString` | src/loyalty.rs:249-256 | the token is `L1` or `L2`, and it is `L1` exactly for L1 |
| `Loyalty.LevelFromStr` | src/loyalty.rs:240-246 | accepts exactly `l1`/`L1` (giving L1) and `l2`/`L2` (giving L2); every other string is refused with the level-token error |
| `Loyalty.LevelTokenRoundTrip` | src/loyalty.rs:240-256 | parsing the printed token of a level gives that level back |
| `Loyalty.NextLevel` | src/loyalty.rs:170-181 | the level after the automatic check is L2 exactly when it was L2 or the balance is at least 50,000 |
| `Loyalty.BurnedPoints` | src/loyalty.rs:183-193 | `get_burned_points`: zero when no Burn entry is recorded against the purchase, and never negative when no entry has a negative amount |
| `Loyalty.BurnedPointsIsBurnSumOfPurchase` | src/loyalty.rs:183-193 | the fold of `get_burned_points` equals the Burn total of the purchase's own entries (an independent filter-then-sum definition) |
| `Loyalty.BurnedPointsSplit` | src/loyalty.rs:183-193 | burned points are additive over the log, so burns recorded against one purchase in separate calls all count |
| `Loyalty.NewAccount` | src/loyalty.rs:48-61 | a new account has the given ids, birthdate and creator, balance 0, turnover 0, level L1, no card and an empty log, and satisfies the ledger invariant |
| `Loyalty.ApplySetCard` | src/loyalty.rs:63-72 | succeeds exactly when the Luhn check accepts the card; on success only the card field changes; otherwise the error is the invalid-card error |
| `Loyalty.ApplyCheckLevel` | src/loyalty.rs:170-181 | only the level may change; it changes exactly when it is L1 and the balance is at least 50,000; L2 stays L2 |
| `Loyalty.CheckLevelIdempotent` | src/loyalty.rs:170-181 | checking the level twice is the same as checking it once |
| `Loyalty.ApplyBurn` | src/loyalty.rs:84-114 | fails exactly when the balance is below the amount, reporting the current balance and changing nothing; otherwise appends exactly one Burn entry with that amount and purchase, lowers the balance by the amount (never below zero), and changes nothing else |
| `Loyalty.BurnKeepsLedger` | src/loyalty.rs:97-110 | a successful burn keeps balance = Σ Earn − Σ Burn (and the other invariant parts), and raises the purchase's burned points by the amount |
| `Loyalty.ApplyClose` | src/loyalty.rs:116-151 | earned points use the level reached by the first check; one Earn entry with the gross and that rate is appended; the balance rises by the earned points and the turnover by the gross; the level is then checked again; nothing else changes |
| `Loyalty.CloseSummary` | src/loyalty.rs:153-163 | closing balance = new balance; earned = the points just credited; burned = the Burn total recorded against the purchase before the close; opening = closing − earned + burned = balance before the close + burned |
| `Loyalty.CloseKeepsLedger` | src/loyalty.rs:129-148 | closing a purchase keeps the ledger and turnover invariant |
| `Loyalty.ReplayKeepsLedger` | src/loyalty.rs:63-151 | over any sequence of account operations, the ledger invariant holds, the log is only appended to, the turnover never decreases, and the account and customer ids never change |
| `Loyalty.ReplayNeverDemotes` | src/loyalty.rs:170-181 | with no operator override of the level, an account at L2 stays at L2 over any sequence of operations |
| `Loyalty.PromotionLagsOnePurchase` | src/loyalty.rs:116-151 | purchases of 1,000,000, 2,000,000 and 1,000,000 on a new account earn 20,000, 40,000 (still at L1, promoted afterwards) and 40,000 (at L2), leaving 100,000 points |
| `Loyalty.Account.constructor` | src/loyalty.rs:48-61 | the new object satisfies the invariant and its state is `NewAccount` of the arguments |
| `Loyalty.Account.SetCard` | src/loyalty.rs:63-72 | the result and the new state are those of `ApplySetCard`; on failure the state is unchanged |
| `Loyalty.Account.SetLoyaltyLevel` | src/loyalty.rs:74-77 | only the level changes, to the given one, whatever the balance |
| `Loyalty.Account.SetBirthdate` | src/loyalty.rs:79-82 | only the birthdate changes |
| `Loyalty.Account.Balance` | src/loyalty.rs:166-168 | the balance equals Σ Earn.amount − Σ Burn.amount over the account's log |
| `Loyalty.Account.CheckLoyaltyLevel` | src/loyalty.rs:170-181 | the new state is `ApplyCheckLevel` of the old one |
| `Loyalty.Account.BurnPoints` | src/loyalty.rs:84-114 | the result is `ApplyBurn` of the old state; the state becomes its value on success and is unchanged on failure |
| `Loyalty.Account.ClosePurchase` | src/loyalty.rs:116-164 | the check, compute, append, update and check sequence yields exactly the state and summary of `ApplyClose`, and always succeeds |
| `Service.FromPackError` | src/prelude.rs:56-63 | a missing object becomes NotFound, and exactly the other storage failures become an internal error |
| `Service.FindFirst` | src/main.rs:69-80 | `iter().find`: the position found is the first one whose account satisfies the predicate; none is found exactly when no account satisfies it |
| `Service.StringToUuid` | src/main.rs:239-242 | succeeds exactly when the id parses, giving the parsed id; otherwise a bad request naming the id |
| `Service.FindId` | src/main.rs:135 | finds an account with the requested id, or reports a missing object exactly when none has it |
| `Service.Locate` | src/main.rs:135 | the parse-then-find step each account request performs (src/main.rs lines 135, 149, 163, 184, 197 and 215, with the error conversion of src/prelude.rs lines 56-63): a malformed id is a bad request; a well-formed id that no account carries is NotFound; otherwise the position of an account with that id |
| `Service.LocateIsUnique` | src/main.rs:135 | with unique ids, the located account is the only one carrying the requested id |
| `Service.CreateAccountSpec` | src/main.rs:32-67 | an existing account with the customer id gives a bad request whatever the date; for a new customer, creation succeeds exactly when the date parses, and an unparsable date gives the malformed-date bad request; any failure leaves the collection unchanged; success appends exactly one new L1 account with zero balance and an empty log, and returns it |
| `Service.CreateAccountKeepsInvariant` | src/main.rs:34-55 | creation with a fresh account id keeps customer ids and account ids unique and every account consistent |
| `Service.SetCardSpec` | src/main.rs:144-156 | id errors come first; then the result succeeds exactly when the Luhn check passes; only the addressed account's card changes; a failure is an invalid-card bad request and leaves the collection unchanged |
| `Service.SetCardKeepsInvariant` | src/main.rs:144-156 | setting a card keeps the repository invariant |
| `Service.SetLoyaltyLevelSpec` | src/main.rs:158-172 | the account is located before the token is parsed; only the addressed account's level changes, to the parsed level; a bad token is a bad request and leaves the collection unchanged |
| `Service.SetLoyaltyLevelKeepsInvariant` | src/main.rs:158-172 | setting a level keeps the repository invariant |
| `Service.SetBirthdateSpec` | src/main.rs:174-190 | the date is parsed before the id; only the addressed account's birthdate changes; failures leave the collection unchanged |
| `Service.SetBirthdateKeepsInvariant` | src/main.rs:174-190 | setting a birthdate keeps the repository invariant |
| `Service.BurnPointsSpec` | src/main.rs:192-208 | account lookup, then purchase-id parsing, then the burn; it fails exactly when the located account's balance is below the amount, as a bad request carrying that balance; only the addressed account changes, as `ApplyBurn` says; failures leave the collection unchanged |
| `Service.BurnPointsKeepsInvariant` | src/main.rs:192-208 | burning keeps the repository invariant |
| `Service.ClosePurchaseSpec` | src/main.rs:210-236 | after the account lookup and purchase-id parsing, the purchase is always closed on the addressed account only; the answer copies both request ids and the summary's four numbers unchanged |
| `Service.ClosePurchaseKeepsInvariant` | src/main.rs:210-236 | closing a purchase keeps the repository invariant |
| `Service.LoyaltyService.Init` | src/main.rs:26-30 | the service starts over the stored accounts, which satisfy the repository invariant |
| `Service.LoyaltyService.CreateAccount` | src/main.rs:32-67 | the collection and the answer are those of `CreateAccountSpec`; existing account objects keep their places; the invariant is kept |
| `Service.LoyaltyService.GetAccountByCustomerId` | src/main.rs:69-83 | returns the first account in collection order with the requested customer id; it is a bad request (not NotFound) exactly when no account has it |
| `Service.LoyaltyService.GetAccountByCardId` | src/main.rs:85-101 | returns the first account in collection order whose card equals the requested one (cards need not be unique), so an account without a card never matches; it is a bad request exactly when no account has that card |
| `Service.LoyaltyService.GetAccountByQuery` | src/main.rs:103-125 | an unparsable date is a bad request before any lookup; otherwise returns the first account in collection order matching both customer id and birthdate, or NotFound exactly when none matches |
| `Service.LoyaltyService.GetTransactionsAll` | src/main.rs:127-142 | succeeds exactly when the id parses and names an account, returning that account's log verbatim (same order and length); an unparsable id is a malformed-id bad request, and a well-formed id that no account carries is NotFound |
| `Service.LoyaltyService.SetCard` | src/main.rs:144-156 | the collection and answer are those of `SetCardSpec`; the set of account objects is unchanged |
| `Service.LoyaltyService.SetLoyaltyLevel` | src/main.rs:158-172 | the collection and answer are those of `SetLoyaltyLevelSpec` |
| `Service.LoyaltyService.SetBirthdate` | src/main.rs:174-190 | the collection and answer are those of `SetBirthdateSpec` |
| `Service.LoyaltyService.BurnPoints` | src/main.rs:192-208 | the collection and answer are those of `BurnPointsSpec` |
| `Service.LoyaltyService.ClosePurchase` | src/main.rs:210-236 | the collection and answer are those of `ClosePurchaseSpec` |

## Left out

- Transport: the gRPC trait implementation, request and response wrapping, and the channel that streams the transaction list (src/main.rs:244-342). Process start-up, configuration and signal handling (src/main.rs:344-378) are left out too.
- Concurrency: each service call is one atomic step. The source's `create_account` takes the lock once for the duplicate check and again for the insert. Under real concurrency two creations for the same customer can therefore both succeed. The sequential model cannot show this.
- Persistence: the storage collaborator is modelled as the sequence itself. Loading, durable writes and their failures (which would surface as `InternalError`) are not modelled. Insertion always succeeds.
- `Service.LoyaltyService.CreateAccount`: the generated account id is an argument required to be fresh. Random `Uuid::new_v4` collisions are not modelled. Transaction ids are also arguments, with no uniqueness claim.
- Foreign parsers: date parsing, UUID parsing and the Luhn check are arbitrary functions supplied in `Env`. The Luhn check is assumed to return the card id unchanged when it accepts it.
- `Service.LoyaltyService.BurnPoints`: the source converts the updated account into a wire transaction with a conversion that is not part of this model. The model answers with the updated account's state.
- Timestamps: `created_at` of accounts and transactions, and the clock, are left out.
- Floating point: `Loyalty.EarnedPoints` uses the exact percentage with integer rounding. It does not reproduce the `f32` precision loss for large totals. Earn entries store the rate as the integer percentage instead of a float.
- Machine integers: balances, turnover and amounts are unbounded integers. `i32` overflow and the `u32` to `i32` cast of the gross are not modelled.
- Error messages: the source's message strings are replaced by the tags of `LoyaltyError` and `BadRequestReason`. The wire conversions of accounts and transactions, other than the error mapping, are not part of this model.
- `Default` implementations are scaffolding and are not modelled.
