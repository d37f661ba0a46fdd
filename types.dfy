/** The records, choices, errors and reward constants of the EcoChain DAO
    canister's ledger. */
module Types {

  /** A caller identity: an Internet Computer principal, an opaque byte blob.
      Only equality of principals matters to the ledger. */
  datatype Principal = Principal(bytes: seq<bv8>)

  /** Nanoseconds since the epoch, as the IC system time reports it. */
  type Timestamp = nat

  datatype Option<+T> = None | Some(value: T)

  /** The canister's error type; every failing update returns one of these. */
  datatype EcoError =
    | UserNotFound
    | InsufficientBalance
    | ProposalNotFound
    | ProposalNotActive
    | AlreadyVoted
    | Unauthorized
    | DataNotFound
    | AlreadyValidated

  /** `Result<T, EcoError>` of the canister's interface. */
  datatype Result<+T> = Ok(value: T) | Err(error: EcoError)

  datatype VoteChoice = Yes | No

  datatype User = User(principal: Principal, balance: nat, registeredAt: Timestamp)

  datatype Proposal = Proposal(
    id: nat,
    creator: Principal,
    description: string,
    yesVotes: nat,
    noVotes: nat,
    isActive: bool,
    createdAt: Timestamp,
    voters: seq<Principal>)

  datatype DataSubmission = DataSubmission(
    id: nat,
    submitter: Principal,
    data: string,
    validated: bool,
    validator: Option<Principal>,
    submittedAt: Timestamp)

  const TotalSupply: nat := 100_000_000
  const RegistrationReward: nat := 1_000
  const DataSubmissionReward: nat := 50
  const ValidationReward: nat := 25
  const GovernanceReward: nat := 10
  const MinProposalBalance: nat := 1_000
}
