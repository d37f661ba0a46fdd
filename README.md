# EcoChain DAO ledger, modelled in Dafny

This project models the ledger of the EcoChain DAO backend canister
(`src/ecochain_dao_backend/src/lib.rs`). The canister keeps three keyed
tables and two id counters:

- users: principal → user record (balance, registration time);
- data submissions: id → environmental observation (submitter, payload,
  validated flag, validator);
- proposals: id → governance proposal (tallies, active flag, voters).

Its update calls register users, accept observations, let a peer validate
them, open proposals, record votes and transfer tokens. Rewards are paid
through one helper, `reward_user`. Its query calls list and count the tables.

Layout:

- `types.dfy` (module `Types`): the records, `VoteChoice`, `EcoError`, `Result`
  and the reward constants.
- `ledger.dfy` (module `Ledger`): the canister state as a value (`State`) and
  one transition function per update call. Each returns the new state and
  the call's result. `Apply`/`Run` replay a sequence of calls. `Inv` is the
  invariant every reachable state keeps.
- `canister.dfy` (module `Canister`): class `EcoChainDao` holding the tables
  as `map` fields and the counters as `nat` fields. Its methods update them in
  place, step by step, as the Rust code does. Each method is proved to produce
  exactly the state and result of the matching `Ledger` transition. Each
  update-call method also keeps `Valid()`, the invariant. The internal
  `RewardUser` helper is called mid-update and is not held to it.
- `queries.dfy` (module `Queries`): the query calls as functions of a
  `State`. Applied to `EcoChainDao.Snapshot()`, they give what the
  canister's queries return.
- `balances.dfy` (module `Balances`): the total number of tokens users hold,
  and how replacing or adding one record changes it.
- `properties.dfy` (module `Properties`): lemmas. They cover invariant
  preservation, token issuance and conservation, the one-way lifecycle of
  submissions and proposals, the exactness of the queries, and an end-to-end
  run.

The caller's principal (`caller()`) and the clock (`time()`) are parameters of
every call that uses them.

Behaviour kept as the code has it, where a stricter design would differ:

- Registering a principal that is already registered returns `Unauthorized`.
  There is no separate "already registered" error.
- A transfer to oneself is accepted. The receiver's record is read before
  the debited sender is written back, so the second write wins. The caller
  ends `amount` richer, and tokens are minted (`Properties.SelfTransferMints`).
- `get_total_supply` returns the constant 100000000. It does not track the
  tokens held (`Properties.TotalSupplyIsNotTheBalanceSum`).
- Nothing ever sets `is_active` to false. "Every proposal is active" is part
  of the invariant, so the active-proposals query returns every proposal.
- The code has no call to reject a submission or to close a proposal. It
  keeps no per-user counters of submissions, votes or proposals. Proposal
  creation below the minimum balance fails with `InsufficientBalance`.

## Model

| member | source | states |
|---|---|---|
| Ledger.RewardUser | src/ecochain_dao_backend/src/lib.rs:436-447 | succeeds exactly when the principal is registered; it then adds `amount` to that user's balance and changes no other record or table; otherwise it returns `UserNotFound` and changes nothing |
| Canister.EcoChainDao.RewardUser | src/ecochain_dao_backend/src/lib.rs:436-447 | reading, crediting and writing back the record in place has exactly the effect and result of `Ledger.RewardUser` |
| Canister.EcoChainDao.constructor | src/ecochain_dao_backend/src/lib.rs:140-166 | a freshly installed canister has empty tables and both id counters at 0, and satisfies the invariant |
| Ledger.RegisterUser | src/ecochain_dao_backend/src/lib.rs:170-190 | fails exactly when the caller is already registered, with `Unauthorized` and no change; otherwise adds exactly one user, the caller, with balance 1000 and `registered_at = now`, and leaves every other user and table as it was |
| Canister.EcoChainDao.RegisterUser | src/ecochain_dao_backend/src/lib.rs:170-190 | the in-place update has exactly the effect and result of `Ledger.RegisterUser`, and keeps the invariant |
| Ledger.SubmitData | src/ecochain_dao_backend/src/lib.rs:216-252 | fails exactly when the caller is unregistered, with `UserNotFound` and no change; otherwise stores the payload under id = previous data counter + 1, unvalidated and with no validator, sets the counter to that id, credits the submitter exactly 50 and no one else, and leaves proposals alone |
| Canister.EcoChainDao.SubmitData | src/ecochain_dao_backend/src/lib.rs:216-252 | bumping the counter, inserting the record and calling the reward helper in place has exactly the effect and result of `Ledger.SubmitData`, and keeps the invariant |
| Ledger.ValidateData | src/ecochain_dao_backend/src/lib.rs:254-294 | `UserNotFound` for an unregistered caller, then `DataNotFound` for an unknown id, then `AlreadyValidated`, then `Unauthorized` when the caller is the submitter; it succeeds exactly when none of these holds; every error changes nothing; on success the submission becomes validated with the caller as validator (who is not the submitter), the caller is credited exactly 25, and nothing else changes |
| Canister.EcoChainDao.ValidateData | src/ecochain_dao_backend/src/lib.rs:254-294 | the in-place update has exactly the effect and result of `Ledger.ValidateData`, and keeps the invariant |
| Ledger.CreateProposal | src/ecochain_dao_backend/src/lib.rs:313-352 | `UserNotFound` for an unregistered caller, `InsufficientBalance` below a balance of 1000, with no change; it succeeds exactly for a registered caller holding at least 1000; on success stores under id = proposal counter + 1 an active proposal with 0/0 tallies and no voters, sets the counter to that id, and changes no balance |
| Canister.EcoChainDao.CreateProposal | src/ecochain_dao_backend/src/lib.rs:313-352 | the in-place update has exactly the effect and result of `Ledger.CreateProposal`, and keeps the invariant |
| Ledger.VoteOnProposal | src/ecochain_dao_backend/src/lib.rs:354-398 | `UserNotFound`, `ProposalNotFound`, `ProposalNotActive` or `AlreadyVoted`, in that order, each with no change; it succeeds exactly for a registered caller not yet among the voters of a stored active proposal; on success exactly the chosen tally rises by 1, the caller is appended to the voters, no other field or proposal changes, and the caller is credited exactly 10 |
| Canister.EcoChainDao.VoteOnProposal | src/ecochain_dao_backend/src/lib.rs:354-398 | the in-place update has exactly the effect and result of `Ledger.VoteOnProposal`, and keeps the invariant |
| Ledger.TransferTokens | src/ecochain_dao_backend/src/lib.rs:498-527 | `UserNotFound` for a missing sender, then `InsufficientBalance` when the sender holds less than `amount`, then `UserNotFound` for a missing receiver, each with no change; it succeeds exactly when both are registered and the sender holds at least `amount`; on success between two users the sender loses and the receiver gains `amount`; when the receiver is the caller the caller ends with old balance + `amount`; no other user or table changes |
| Canister.EcoChainDao.TransferTokens | src/ecochain_dao_backend/src/lib.rs:498-527 | reading both records, then writing sender and receiver back in that order, has exactly the effect and result of `Ledger.TransferTokens`, and keeps the invariant |
| Queries.IdsWhere | src/ecochain_dao_backend/src/lib.rs:299-308 | walking ids 1..n yields, in strictly ascending order, exactly the stored ids among them whose records pass the filter |
| Queries.UnvalidatedData | src/ecochain_dao_backend/src/lib.rs:296-310 | every element is a stored submission that is not validated, and every unvalidated submission with an id up to the counter is listed |
| Queries.AllProposals | src/ecochain_dao_backend/src/lib.rs:400-408 | every element is a stored proposal, and every proposal with an id up to the counter is listed |
| Queries.ActiveProposals | src/ecochain_dao_backend/src/lib.rs:410-424 | every element is a stored active proposal, and every active proposal with an id up to the counter is listed |
| Queries.GetProposal | src/ecochain_dao_backend/src/lib.rs:426-433 | returns the stored proposal exactly when the id is known, else `ProposalNotFound` |
| Queries.GetUserBalance | src/ecochain_dao_backend/src/lib.rs:192-202 | returns the caller's balance exactly when the caller is registered, else `UserNotFound` |
| Queries.GetUserInfo | src/ecochain_dao_backend/src/lib.rs:204-213 | returns the caller's record exactly when the caller is registered, else `UserNotFound` |
| Queries.IsUserRegistered | src/ecochain_dao_backend/src/lib.rs:541-546 | true exactly for registered principals |
| Queries.GetTotalSupply | src/ecochain_dao_backend/src/lib.rs:451-454 | 100000000 in every state |
| Queries.AllUsers | src/ecochain_dao_backend/src/lib.rs:530-538 | one entry per registered principal; every user record appears and nothing else does |
| Queries.SystemStats | src/ecochain_dao_backend/src/lib.rs:456-493 | exactly the six named counters; the supply entry is the constant |
| Properties.RegisterUserPreservesInv | src/ecochain_dao_backend/src/lib.rs:175-188 | registration keeps the invariant |
| Properties.SubmitDataPreservesInv | src/ecochain_dao_backend/src/lib.rs:221-251 | a submission keeps the invariant; the new id is fresh, since ids 1..counter are exactly the stored ones |
| Properties.ValidateDataPreservesInv | src/ecochain_dao_backend/src/lib.rs:266-293 | validation keeps the invariant, in particular that a validator is never the submitter |
| Properties.CreateProposalPreservesInv | src/ecochain_dao_backend/src/lib.rs:318-351 | proposal creation keeps the invariant |
| Properties.AppendFresh | src/ecochain_dao_backend/src/lib.rs:376-386 | appending a principal not yet among the voters keeps the voters free of duplicates |
| Properties.VoteOnProposalPreservesInv | src/ecochain_dao_backend/src/lib.rs:366-397 | voting keeps tallies equal to the number of voters and voters free of duplicates |
| Properties.TransferTokensPreservesInv | src/ecochain_dao_backend/src/lib.rs:503-526 | a transfer keeps the invariant |
| Properties.ApplyPreservesInv | src/ecochain_dao_backend/src/lib.rs:170-527 | every update call keeps the invariant |
| Properties.RunPreservesInv | src/ecochain_dao_backend/src/lib.rs:170-527 | any sequence of update calls keeps the invariant |
| Properties.ReachableStatesAreSound | src/ecochain_dao_backend/src/lib.rs:271-282 | in every state reachable from installation, no submission has its submitter as validator, a validator is recorded exactly for validated submissions, every proposal is active, voters are free of duplicates, and yes + no equals the number of voters |
| Properties.RewardUserIssues | src/ecochain_dao_backend/src/lib.rs:436-447 | a successful credit raises the sum of all balances by exactly `amount`; a failed one leaves it unchanged |
| Properties.RegisterUserIssues | src/ecochain_dao_backend/src/lib.rs:175-188 | a registration raises the sum of all balances by exactly 1000 if it succeeds, by 0 otherwise |
| Properties.SubmitDataIssues | src/ecochain_dao_backend/src/lib.rs:221-251 | a submission raises the sum of all balances by exactly 50 if it succeeds, by 0 otherwise |
| Properties.ValidateDataIssues | src/ecochain_dao_backend/src/lib.rs:259-291 | a validation raises the sum of all balances by exactly 25 if it succeeds, by 0 otherwise |
| Properties.VoteOnProposalIssues | src/ecochain_dao_backend/src/lib.rs:359-396 | a vote raises the sum of all balances by exactly 10 if it succeeds, by 0 otherwise |
| Properties.TransferConservesTokens | src/ecochain_dao_backend/src/lib.rs:503-526 | a transfer between two different principals leaves the sum of all balances unchanged, whether it succeeds or fails |
| Properties.SelfTransferMints | src/ecochain_dao_backend/src/lib.rs:515-523 | a transfer to oneself with enough balance succeeds; the caller ends with old balance + `amount`, and the sum of all balances rises by `amount` |
| Properties.TotalSupplyIsNotTheBalanceSum | src/ecochain_dao_backend/src/lib.rs:451-454 | after the first registration users hold 1000 tokens while the reported supply is 100000000 |
| Properties.ValidatedIsFinal | src/ecochain_dao_backend/src/lib.rs:271-273 | in a state satisfying the invariant, no update call changes a validated submission, so its validator is assigned once |
| Properties.ValidateTwiceFails | src/ecochain_dao_backend/src/lib.rs:259-273 | after a successful validation, any further validation of the same id fails (`AlreadyValidated`, or `UserNotFound` for an unregistered caller) and changes nothing, so at most one validation reward is paid |
| Properties.VoteTwiceFails | src/ecochain_dao_backend/src/lib.rs:375-378 | after a successful vote, a second vote by the same caller on the same proposal fails with `AlreadyVoted` and changes nothing |
| Properties.ProposalsStayActive | src/ecochain_dao_backend/src/lib.rs:336-388 | no update call removes a proposal or clears its active flag |
| Properties.RegistrationIsPermanent | src/ecochain_dao_backend/src/lib.rs:175-188 | no update call removes a user, and registering a registered principal always fails with `Unauthorized`, changing nothing |
| Properties.IdsWhereCount | src/ecochain_dao_backend/src/lib.rs:469-487 | the ascending list of kept ids is as long as the set of kept ids, so the list queries agree with the counts |
| Properties.IdsOfFullTable | src/ecochain_dao_backend/src/lib.rs:400-408 | when every id 1..n is stored, the listing is exactly 1, 2, ..., n |
| Properties.IdsAllKept | src/ecochain_dao_backend/src/lib.rs:410-424 | a filter that every record passes lists the same ids as no filter |
| Properties.UnvalidatedDataExact | src/ecochain_dao_backend/src/lib.rs:296-310 | under the invariant, `get_unvalidated_data` returns exactly the submissions with `validated == false`, in ascending id order |
| Properties.AllProposalsExact | src/ecochain_dao_backend/src/lib.rs:400-408 | under the invariant, `get_all_proposals` returns every proposal once, the one with id i at position i - 1 |
| Properties.ActiveProposalsAreAll | src/ecochain_dao_backend/src/lib.rs:410-424 | under the invariant, `get_active_proposals` returns the same list as `get_all_proposals` |
| Properties.FullTableSize | src/ecochain_dao_backend/src/lib.rs:465 | a table keyed exactly 1..n holds n records |
| Properties.CountAllKept | src/ecochain_dao_backend/src/lib.rs:469-474 | counting a condition every record meets counts the whole table |
| Properties.CountSplit | src/ecochain_dao_backend/src/lib.rs:478-487 | in a table keyed 1..n, the validated count plus the pending count is the table size |
| Properties.SubmissionsSplit | src/ecochain_dao_backend/src/lib.rs:478-487 | under the invariant, the validated count plus the length of `get_unvalidated_data` is the number of submissions |
| Properties.ActiveCountIsAll | src/ecochain_dao_backend/src/lib.rs:469-474 | under the invariant, the active-proposal count is the number of proposals |
| Properties.StatsMatchQueries | src/ecochain_dao_backend/src/lib.rs:456-493 | under the invariant, the stats agree with the id counters and the list queries: total and active proposals both equal the proposal counter, submissions equal the data counter, and validated plus unvalidated make up all submissions |
| Properties.SubmittedIsPending | src/ecochain_dao_backend/src/lib.rs:229-246 | a new submission gets an id not used before and is listed by `get_unvalidated_data` |
| Properties.ValidatedLeavesPending | src/ecochain_dao_backend/src/lib.rs:280-284 | after a successful validation the submission is no longer listed by `get_unvalidated_data` |
| Properties.EndToEndScenario | src/ecochain_dao_backend/src/lib.rs:170-294 | two users register (1000 each); the first submits (1050) and cannot validate their own submission (`Unauthorized`); the second validates it (1025, validated, validator is the second); a later attempt by the first returns `AlreadyValidated` and changes nothing; 2075 tokens are held in all |
| Balances.SumOverRemove | src/ecochain_dao_backend/src/lib.rs:436-447 | the sum of balances does not depend on which user is taken out first |
| Balances.SumBalancesUpdate | src/ecochain_dao_backend/src/lib.rs:441-442 | replacing one user's record changes the sum of balances by the difference of the two balances |
| Balances.SumBalancesInsert | src/ecochain_dao_backend/src/lib.rs:187 | adding a new user adds that user's balance to the sum |

## Left out

- Persistence: the `Storable` implementations (lib.rs:76-119) encode records with the candid library. The stable-memory setup (lib.rs:130-167) uses libraries that are not part of this model. The tables are plain maps and the counters plain numbers. The `Storable` bounds cap the encoded size of a record: 1000 bytes for a user (lib.rs:84-87), 2000 for a proposal (lib.rs:99-102) and 1500 for a submission (lib.rs:114-117). Storing a larger record (a long `data` or `description`, or a proposal whose `voters` list has grown too long) fails in the canister, while the model's maps take records of any size.
- `USER_ID_COUNTER` (lib.rs:135-138) is never read or written by any call, so it is not modelled.
- `caller()` and `time()` are IC system calls. They are parameters of the calls.
- Integer width: balances, tallies, ids and counters are unbounded `nat`. The u64 overflow of `balance += amount`, `yes_votes += 1` and `counter + 1` is not modelled. The `as u64` casts in `get_system_stats` are not modelled either.
- The `ActionType` argument of `reward_user` is never used by the helper, so the model omits it.
- Reward failure after a write: `submit_data`, `validate_data` and `vote_on_proposal` write their record before calling `reward_user`. They would return its `UserNotFound` with the write kept. The caller was checked to be registered just before, so this cannot happen. The model reports `UserNotFound` on that path too.
- Queries.AllUsers: the order of `get_all_users` is the order the candid library defines on principals, which is not part of this model. The model leaves the order open. It is a ghost function.
- Queries.UnvalidatedData, Queries.AllProposals, Queries.ActiveProposals: these contracts speak of the ids 1..counter. That every stored id lies in that range comes from the invariant, in `Properties.UnvalidatedDataExact`, `Properties.AllProposalsExact` and `Properties.ActiveProposalsAreAll`.
- Query results are values computed from the state. The model does not represent the copies the canister hands out or their wire encoding. The Candid interface, `export_candid!` and the empty `init` are not modelled.
- Concurrency: canister calls run one at a time to completion, so there is no interleaving to model.
- The browser front end and the generated interface declarations hold no ledger logic and are outside this model.
