/** The canister's state as a value, and one transition function per update
    call. Each transition takes the caller's principal and, where the call
    reads the clock, the current time; it returns the new state together with
    the call's result. A failing call returns the state it was given. */
module Ledger {
  import opened Types

  /** The three tables and the two id counters of the canister. */
  datatype State = State(
    users: map<Principal, User>,
    submissions: map<nat, DataSubmission>,
    proposals: map<nat, Proposal>,
    dataIdCounter: nat,
    proposalIdCounter: nat)

  datatype Outcome<+T> = Outcome(state: State, result: Result<T>)

  /** The state of a freshly installed canister: empty tables, counters at 0. */
  const Init: State := State(map[], map[], map[], 0, 0)

  /** `after` is `before` with `amount` added to the balance of `p` and
      nothing else changed. */
  ghost predicate Credited(before: map<Principal, User>, after: map<Principal, User>, p: Principal, amount: nat)
  {
    && p in before
    && after.Keys == before.Keys
    && after[p] == before[p].(balance := before[p].balance + amount)
    && forall q :: q in before && q != p ==> after[q] == before[q]
  }

  /** The reward helper: credit `amount` to a registered user. */
  function RewardUser(s: State, p: Principal, amount: nat): (o: Outcome<()>)
    ensures o.result.Ok? <==> p in s.users
    ensures o.result.Err? ==> o.result.error == UserNotFound && o.state == s
    ensures o.result.Ok? ==> o.state == s.(users := o.state.users) && Credited(s.users, o.state.users, p, amount)
  {
    if p in s.users then
      var user := s.users[p];
      Outcome(s.(users := s.users[p := user.(balance := user.balance + amount)]), Ok(()))
    else
      Outcome(s, Err(UserNotFound))
  }

  /** register_user: a new principal gets a user record holding the
      registration grant; a known one is refused with Unauthorized. */
  function RegisterUser(s: State, caller: Principal, now: Timestamp): (o: Outcome<User>)
    ensures o.result.Err? <==> caller in s.users
    ensures o.result.Err? ==> o.result.error == Unauthorized && o.state == s
    ensures o.result.Ok? ==>
      && o.result.value == User(caller, RegistrationReward, now)
      && o.state == s.(users := o.state.users)
      && o.state.users.Keys == s.users.Keys + {caller}
      && o.state.users[caller] == o.result.value
      && (forall p :: p in s.users ==> o.state.users[p] == s.users[p])
  {
    if caller in s.users then
      Outcome(s, Err(Unauthorized))
    else
      var user := User(caller, RegistrationReward, now);
      Outcome(s.(users := s.users[caller := user]), Ok(user))
  }

  /** submit_data: a registered caller's observation is stored under the
      next data id, unvalidated, and the caller is paid the submission reward. */
  function SubmitData(s: State, caller: Principal, data: string, now: Timestamp): (o: Outcome<DataSubmission>)
    ensures o.result.Err? <==> caller !in s.users
    ensures o.result.Err? ==> o.result.error == UserNotFound && o.state == s
    ensures o.result.Ok? ==>
      var d := o.result.value;
      && d == DataSubmission(s.dataIdCounter + 1, caller, data, false, None, now)
      && o.state.dataIdCounter == d.id
      && o.state.submissions == s.submissions[d.id := d]
      && o.state.proposals == s.proposals
      && o.state.proposalIdCounter == s.proposalIdCounter
      && Credited(s.users, o.state.users, caller, DataSubmissionReward)
  {
    if caller !in s.users then
      Outcome(s, Err(UserNotFound))
    else
      var id := s.dataIdCounter + 1;
      var d := DataSubmission(id, caller, data, false, None, now);
      var stored := s.(dataIdCounter := id, submissions := s.submissions[id := d]);
      var rewarded := RewardUser(stored, caller, DataSubmissionReward);
      // UserNotFound is the only error the reward helper returns
      Outcome(rewarded.state, if rewarded.result.Ok? then Ok(d) else Err(UserNotFound))
  }

  /** validate_data: a registered caller other than the submitter marks a
      pending submission validated, becomes its validator and is paid the
      validation reward. AlreadyValidated is decided before Unauthorized. */
  function ValidateData(s: State, caller: Principal, id: nat): (o: Outcome<DataSubmission>)
    ensures caller !in s.users ==> o.result == Err(UserNotFound)
    ensures caller in s.users && id !in s.submissions ==> o.result == Err(DataNotFound)
    ensures caller in s.users && id in s.submissions && s.submissions[id].validated ==>
      o.result == Err(AlreadyValidated)
    ensures caller in s.users && id in s.submissions && !s.submissions[id].validated
            && s.submissions[id].submitter == caller ==>
      o.result == Err(Unauthorized)
    ensures o.result.Ok? <==>
      caller in s.users && id in s.submissions && !s.submissions[id].validated
      && s.submissions[id].submitter != caller
    ensures o.result.Err? ==> o.state == s
    ensures o.result.Ok? ==>
      && caller in s.users && id in s.submissions
      && var before := s.submissions[id];
      && !before.validated && before.submitter != caller
      && o.result.value == before.(validated := true, validator := Some(caller))
      && o.state.submissions == s.submissions[id := o.result.value]
      && o.state.dataIdCounter == s.dataIdCounter
      && o.state.proposals == s.proposals
      && o.state.proposalIdCounter == s.proposalIdCounter
      && Credited(s.users, o.state.users, caller, ValidationReward)
  {
    if caller !in s.users then
      Outcome(s, Err(UserNotFound))
    else if id !in s.submissions then
      Outcome(s, Err(DataNotFound))
    else
      var submission := s.submissions[id];
      if submission.validated then
        Outcome(s, Err(AlreadyValidated))
      else if submission.submitter == caller then
        Outcome(s, Err(Unauthorized))
      else
        var d := submission.(validated := true, validator := Some(caller));
        var stored := s.(submissions := s.submissions[id := d]);
        var rewarded := RewardUser(stored, caller, ValidationReward);
        Outcome(rewarded.state, if rewarded.result.Ok? then Ok(d) else Err(UserNotFound))
  }

  /** create_proposal: a registered caller holding at least the minimum
      balance opens a proposal under the next proposal id, active, with no
      votes. No tokens move. */
  function CreateProposal(s: State, caller: Principal, description: string, now: Timestamp): (o: Outcome<Proposal>)
    ensures caller !in s.users ==> o.result == Err(UserNotFound)
    ensures caller in s.users && s.users[caller].balance < MinProposalBalance ==>
      o.result == Err(InsufficientBalance)
    ensures o.result.Ok? <==> caller in s.users && s.users[caller].balance >= MinProposalBalance
    ensures o.result.Err? ==> o.state == s
    ensures o.result.Ok? ==>
      var p := o.result.value;
      && caller in s.users && s.users[caller].balance >= MinProposalBalance
      && p == Proposal(s.proposalIdCounter + 1, caller, description, 0, 0, true, now, [])
      && o.state == s.(proposalIdCounter := p.id, proposals := s.proposals[p.id := p])
  {
    if caller !in s.users then
      Outcome(s, Err(UserNotFound))
    else if s.users[caller].balance < MinProposalBalance then
      Outcome(s, Err(InsufficientBalance))
    else
      var id := s.proposalIdCounter + 1;
      var p := Proposal(id, caller, description, 0, 0, true, now, []);
      Outcome(s.(proposalIdCounter := id, proposals := s.proposals[id := p]), Ok(p))
  }

  /** vote_on_proposal: a registered caller who has not yet voted on an
      active proposal adds one to the chosen tally, joins its voters and is
      paid the governance reward. */
  function VoteOnProposal(s: State, caller: Principal, id: nat, choice: VoteChoice): (o: Outcome<Proposal>)
    ensures caller !in s.users ==> o.result == Err(UserNotFound)
    ensures caller in s.users && id !in s.proposals ==> o.result == Err(ProposalNotFound)
    ensures caller in s.users && id in s.proposals && !s.proposals[id].isActive ==>
      o.result == Err(ProposalNotActive)
    ensures caller in s.users && id in s.proposals && s.proposals[id].isActive
            && caller in s.proposals[id].voters ==>
      o.result == Err(AlreadyVoted)
    ensures o.result.Ok? <==>
      caller in s.users && id in s.proposals && s.proposals[id].isActive
      && caller !in s.proposals[id].voters
    ensures o.result.Err? ==> o.state == s
    ensures o.result.Ok? ==>
      && caller in s.users && id in s.proposals
      && var before := s.proposals[id];
      && var after := o.result.value;
      && before.isActive && caller !in before.voters
      && after.yesVotes == before.yesVotes + (if choice == Yes then 1 else 0)
      && after.noVotes == before.noVotes + (if choice == No then 1 else 0)
      && after.voters == before.voters + [caller]
      && after == before.(yesVotes := after.yesVotes, noVotes := after.noVotes, voters := after.voters)
      && o.state.proposals == s.proposals[id := after]
      && o.state.proposalIdCounter == s.proposalIdCounter
      && o.state.submissions == s.submissions
      && o.state.dataIdCounter == s.dataIdCounter
      && Credited(s.users, o.state.users, caller, GovernanceReward)
  {
    if caller !in s.users then
      Outcome(s, Err(UserNotFound))
    else if id !in s.proposals then
      Outcome(s, Err(ProposalNotFound))
    else
      var proposal := s.proposals[id];
      if !proposal.isActive then
        Outcome(s, Err(ProposalNotActive))
      else if caller in proposal.voters then
        Outcome(s, Err(AlreadyVoted))
      else
        var tallied := match choice
          case Yes => proposal.(yesVotes := proposal.yesVotes + 1)
          case No => proposal.(noVotes := proposal.noVotes + 1);
        var p := tallied.(voters := tallied.voters + [caller]);
        var stored := s.(proposals := s.proposals[id := p]);
        var rewarded := RewardUser(stored, caller, GovernanceReward);
        Outcome(rewarded.state, if rewarded.result.Ok? then Ok(p) else Err(UserNotFound))
  }

  /** transfer_tokens: move `amount` from the caller to `to`. The receiver's
      record is read before the sender's is written back, so when `to` is the
      caller the second write wins and the caller ends `amount` richer. */
  function TransferTokens(s: State, caller: Principal, to: Principal, amount: nat): (o: Outcome<()>)
    ensures caller !in s.users ==> o.result == Err(UserNotFound)
    ensures caller in s.users && s.users[caller].balance < amount ==> o.result == Err(InsufficientBalance)
    ensures caller in s.users && s.users[caller].balance >= amount && to !in s.users ==>
      o.result == Err(UserNotFound)
    ensures o.result.Ok? <==> caller in s.users && s.users[caller].balance >= amount && to in s.users
    ensures o.result.Err? ==> o.state == s
    ensures o.result.Ok? ==>
      && caller in s.users && to in s.users && s.users[caller].balance >= amount
      && o.state == s.(users := o.state.users)
      && o.state.users.Keys == s.users.Keys
      && (caller != to ==>
            && o.state.users[caller] == s.users[caller].(balance := s.users[caller].balance - amount)
            && o.state.users[to] == s.users[to].(balance := s.users[to].balance + amount))
      && (caller == to ==>
            o.state.users[caller] == s.users[caller].(balance := s.users[caller].balance + amount))
      && (forall p :: p in s.users && p != caller && p != to ==> o.state.users[p] == s.users[p])
  {
    if caller !in s.users then
      Outcome(s, Err(UserNotFound))
    else
      var sender := s.users[caller];
      if sender.balance < amount then
        Outcome(s, Err(InsufficientBalance))
      else if to !in s.users then
        Outcome(s, Err(UserNotFound))
      else
        var receiver := s.users[to];
        var debited := sender.(balance := sender.balance - amount);
        var credited := receiver.(balance := receiver.balance + amount);
        Outcome(s.(users := s.users[caller := debited][to := credited]), Ok(()))
  }

  /** One update call of the canister's interface, without its caller. */
  datatype Call =
    | Register(now: Timestamp)
    | Submit(data: string, now: Timestamp)
    | Validate(submissionId: nat)
    | Propose(description: string, now: Timestamp)
    | Vote(proposalId: nat, choice: VoteChoice)
    | Transfer(to: Principal, amount: nat)

  datatype Request = Request(caller: Principal, call: Call)

  /** The state after one update call. */
  function Apply(s: State, r: Request): State
  {
    match r.call
    case Register(now) => RegisterUser(s, r.caller, now).state
    case Submit(data, now) => SubmitData(s, r.caller, data, now).state
    case Validate(id) => ValidateData(s, r.caller, id).state
    case Propose(description, now) => CreateProposal(s, r.caller, description, now).state
    case Vote(id, choice) => VoteOnProposal(s, r.caller, id, choice).state
    case Transfer(to, amount) => TransferTokens(s, r.caller, to, amount).state
  }

  /** The state after a sequence of update calls, one at a time in order. */
  function Run(s: State, trace: seq<Request>): State
    decreases |trace|
  {
    if trace == [] then s else Run(Apply(s, trace[0]), trace[1..])
  }

  // ----- the ledger's invariant -----

  ghost predicate NoDuplicates<T>(xs: seq<T>)
  {
    forall i, j :: 0 <= i < j < |xs| ==> xs[i] != xs[j]
  }

  /** What a stored submission satisfies: it is filed under its own id, its
      submitter and validator are registered, it carries a validator exactly
      when it is validated, and the validator is not the submitter. */
  ghost predicate SubmissionOk(s: State, k: nat)
    requires k in s.submissions
  {
    var d := s.submissions[k];
    && d.id == k
    && d.submitter in s.users
    && (d.validated <==> d.validator.Some?)
    && (d.validator.Some? ==> d.validator.value != d.submitter && d.validator.value in s.users)
  }

  /** What a stored proposal satisfies: it is filed under its own id, its
      creator and voters are registered, it is active, nobody is among its
      voters twice, and its two tallies add up to the number of voters. */
  ghost predicate ProposalOk(s: State, k: nat)
    requires k in s.proposals
  {
    var p := s.proposals[k];
    && p.id == k
    && p.creator in s.users
    && p.isActive
    && p.yesVotes + p.noVotes == |p.voters|
    && NoDuplicates(p.voters)
    && (forall i :: 0 <= i < |p.voters| ==> p.voters[i] in s.users)
  }

  /** The invariant every reachable state of the canister satisfies. */
  ghost predicate Inv(s: State)
  {
    && (forall p :: p in s.users ==> s.users[p].principal == p)
    && (forall k :: k in s.submissions <==> 1 <= k <= s.dataIdCounter)
    && (forall k :: k in s.submissions ==> SubmissionOk(s, k))
    && (forall k :: k in s.proposals <==> 1 <= k <= s.proposalIdCounter)
    && (forall k :: k in s.proposals ==> ProposalOk(s, k))
  }
}
