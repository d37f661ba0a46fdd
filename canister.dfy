/** The canister itself: the three stable tables and the two id counters as
    fields, and one method per update call that changes them in place. Each
    method is proved to do exactly what the matching transition of `Ledger`
    describes, and to keep the ledger's invariant. The query calls are the
    functions of `Queries` applied to `Snapshot()`. */
module Canister {
  import opened Types
  import opened Ledger
  import Properties

  class EcoChainDao {
    var users: map<Principal, User>
    var submissions: map<nat, DataSubmission>
    var proposals: map<nat, Proposal>
    var dataIdCounter: nat
    var proposalIdCounter: nat

    /** The current contents of the tables and counters, as a value. */
    function Snapshot(): State
      reads this
    {
      State(users, submissions, proposals, dataIdCounter, proposalIdCounter)
    }

    ghost predicate Valid()
      reads this
    {
      Inv(Snapshot())
    }

    /** A freshly installed canister: empty tables, both counters at 0. */
    constructor ()
      ensures Snapshot() == Init
      ensures Valid()
    {
      users, submissions, proposals := map[], map[], map[];
      dataIdCounter, proposalIdCounter := 0, 0;
      Properties.InitInv();
    }

    /** reward_user: read the user's record, add to its balance, write it back. */
    method RewardUser(p: Principal, amount: nat) returns (r: Result<()>)
      modifies this
      ensures Snapshot() == Ledger.RewardUser(old(Snapshot()), p, amount).state
      ensures r == Ledger.RewardUser(old(Snapshot()), p, amount).result
    {
      if p !in users {
        return Err(UserNotFound);
      }
      var user := users[p];
      user := user.(balance := user.balance + amount);
      users := users[p := user];
      r := Ok(());
    }

    method RegisterUser(caller: Principal, now: Timestamp) returns (r: Result<User>)
      requires Valid()
      modifies this
      ensures Valid()
      ensures Snapshot() == Ledger.RegisterUser(old(Snapshot()), caller, now).state
      ensures r == Ledger.RegisterUser(old(Snapshot()), caller, now).result
    {
      ghost var before := Snapshot();
      if caller in users {
        return Err(Unauthorized);
      }
      var user := User(caller, RegistrationReward, now);
      users := users[caller := user];
      Properties.RegisterUserPreservesInv(before, caller, now);
      r := Ok(user);
    }

    method SubmitData(caller: Principal, data: string, now: Timestamp) returns (r: Result<DataSubmission>)
      requires Valid()
      modifies this
      ensures Valid()
      ensures Snapshot() == Ledger.SubmitData(old(Snapshot()), caller, data, now).state
      ensures r == Ledger.SubmitData(old(Snapshot()), caller, data, now).result
    {
      ghost var before := Snapshot();
      if caller !in users {
        return Err(UserNotFound);
      }
      var id := dataIdCounter + 1;
      dataIdCounter := id;
      var submission := DataSubmission(id, caller, data, false, None, now);
      submissions := submissions[id := submission];
      var rewarded := RewardUser(caller, DataSubmissionReward);
      Properties.SubmitDataPreservesInv(before, caller, data, now);
      // UserNotFound is the only error the reward helper returns
      r := if rewarded.Ok? then Ok(submission) else Err(UserNotFound);
    }

    method ValidateData(caller: Principal, id: nat) returns (r: Result<DataSubmission>)
      requires Valid()
      modifies this
      ensures Valid()
      ensures Snapshot() == Ledger.ValidateData(old(Snapshot()), caller, id).state
      ensures r == Ledger.ValidateData(old(Snapshot()), caller, id).result
    {
      ghost var before := Snapshot();
      if caller !in users {
        return Err(UserNotFound);
      }
      if id !in submissions {
        return Err(DataNotFound);
      }
      var submission := submissions[id];
      if submission.validated {
        return Err(AlreadyValidated);
      }
      if submission.submitter == caller {
        return Err(Unauthorized);
      }
      submission := submission.(validated := true, validator := Some(caller));
      submissions := submissions[id := submission];
      var rewarded := RewardUser(caller, ValidationReward);
      Properties.ValidateDataPreservesInv(before, caller, id);
      r := if rewarded.Ok? then Ok(submission) else Err(UserNotFound);
    }

    method CreateProposal(caller: Principal, description: string, now: Timestamp) returns (r: Result<Proposal>)
      requires Valid()
      modifies this
      ensures Valid()
      ensures Snapshot() == Ledger.CreateProposal(old(Snapshot()), caller, description, now).state
      ensures r == Ledger.CreateProposal(old(Snapshot()), caller, description, now).result
    {
      ghost var before := Snapshot();
      if caller !in users {
        return Err(UserNotFound);
      }
      if users[caller].balance < MinProposalBalance {
        return Err(InsufficientBalance);
      }
      var id := proposalIdCounter + 1;
      proposalIdCounter := id;
      var proposal := Proposal(id, caller, description, 0, 0, true, now, []);
      proposals := proposals[id := proposal];
      Properties.CreateProposalPreservesInv(before, caller, description, now);
      r := Ok(proposal);
    }

    method VoteOnProposal(caller: Principal, id: nat, choice: VoteChoice) returns (r: Result<Proposal>)
      requires Valid()
      modifies this
      ensures Valid()
      ensures Snapshot() == Ledger.VoteOnProposal(old(Snapshot()), caller, id, choice).state
      ensures r == Ledger.VoteOnProposal(old(Snapshot()), caller, id, choice).result
    {
      ghost var before := Snapshot();
      if caller !in users {
        return Err(UserNotFound);
      }
      if id !in proposals {
        return Err(ProposalNotFound);
      }
      var proposal := proposals[id];
      if !proposal.isActive {
        return Err(ProposalNotActive);
      }
      if caller in proposal.voters {
        return Err(AlreadyVoted);
      }
      match choice {
        case Yes => proposal := proposal.(yesVotes := proposal.yesVotes + 1);
        case No => proposal := proposal.(noVotes := proposal.noVotes + 1);
      }
      proposal := proposal.(voters := proposal.voters + [caller]);
      proposals := proposals[id := proposal];
      var rewarded := RewardUser(caller, GovernanceReward);
      assert rewarded.Ok?;
      assert Snapshot() == Ledger.VoteOnProposal(before, caller, id, choice).state;
      Properties.VoteOnProposalPreservesInv(before, caller, id, choice);
      r := if rewarded.Ok? then Ok(proposal) else Err(UserNotFound);
    }

    method TransferTokens(caller: Principal, to: Principal, amount: nat) returns (r: Result<()>)
      requires Valid()
      modifies this
      ensures Valid()
      ensures Snapshot() == Ledger.TransferTokens(old(Snapshot()), caller, to, amount).state
      ensures r == Ledger.TransferTokens(old(Snapshot()), caller, to, amount).result
    {
      ghost var before := Snapshot();
      if caller !in users {
        return Err(UserNotFound);
      }
      var sender := users[caller];
      if sender.balance < amount {
        return Err(InsufficientBalance);
      }
      if to !in users {
        return Err(UserNotFound);
      }
      var receiver := users[to];
      sender := sender.(balance := sender.balance - amount);
      receiver := receiver.(balance := receiver.balance + amount);
      users := users[caller := sender];
      users := users[to := receiver];
      assert Snapshot() == Ledger.TransferTokens(before, caller, to, amount).state;
      Properties.TransferTokensPreservesInv(before, caller, to, amount);
      r := Ok(());
    }
  }
}
