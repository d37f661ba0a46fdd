/** What the ledger guarantees: the invariant every reachable state keeps,
    how each call changes the number of tokens held, the one-way lifecycle
    of submissions and proposals, and what the queries return. */
module Properties {
  import opened Types
  import opened Balances
  import opened Ledger
  import opened Queries

  // ----- the invariant -----

  lemma InitInv()
    ensures Inv(Init)
  {
  }

  lemma RegisterUserPreservesInv(s: State, caller: Principal, now: Timestamp)
    requires Inv(s)
    ensures Inv(RegisterUser(s, caller, now).state)
  {
    var t := RegisterUser(s, caller, now).state;
    forall k | k in t.submissions ensures SubmissionOk(t, k) {
      assert SubmissionOk(s, k);
    }
    forall k | k in t.proposals ensures ProposalOk(t, k) {
      assert ProposalOk(s, k);
    }
  }

  lemma SubmitDataPreservesInv(s: State, caller: Principal, data: string, now: Timestamp)
    requires Inv(s)
    ensures Inv(SubmitData(s, caller, data, now).state)
  {
    var o := SubmitData(s, caller, data, now);
    if o.result.Ok? {
      var t := o.state;
      forall k | k in t.submissions ensures SubmissionOk(t, k) {
        if k != t.dataIdCounter { assert SubmissionOk(s, k); }
      }
      forall k | k in t.proposals ensures ProposalOk(t, k) {
        assert ProposalOk(s, k);
      }
    }
  }

  lemma ValidateDataPreservesInv(s: State, caller: Principal, id: nat)
    requires Inv(s)
    ensures Inv(ValidateData(s, caller, id).state)
  {
    var o := ValidateData(s, caller, id);
    if o.result.Ok? {
      var t := o.state;
      assert SubmissionOk(s, id);
      forall k | k in t.submissions ensures SubmissionOk(t, k) {
        if k != id { assert SubmissionOk(s, k); }
      }
      forall k | k in t.proposals ensures ProposalOk(t, k) {
        assert ProposalOk(s, k);
      }
    }
  }

  lemma CreateProposalPreservesInv(s: State, caller: Principal, description: string, now: Timestamp)
    requires Inv(s)
    ensures Inv(CreateProposal(s, caller, description, now).state)
  {
    var o := CreateProposal(s, caller, description, now);
    if o.result.Ok? {
      var t := o.state;
      forall k | k in t.submissions ensures SubmissionOk(t, k) {
        assert SubmissionOk(s, k);
      }
      forall k | k in t.proposals ensures ProposalOk(t, k) {
        if k != t.proposalIdCounter { assert ProposalOk(s, k); }
      }
    }
  }

  /** Appending a principal that is not yet in a list keeps it free of duplicates. */
  lemma AppendFresh<T>(xs: seq<T>, x: T)
    requires NoDuplicates(xs) && x !in xs
    ensures NoDuplicates(xs + [x])
  {
    var ys := xs + [x];
    forall i, j | 0 <= i < j < |ys| ensures ys[i] != ys[j] {
      if j == |xs| {
        assert ys[i] == xs[i];
      } else {
        assert ys[i] == xs[i] && ys[j] == xs[j];
      }
    }
  }

  lemma VoteOnProposalPreservesInv(s: State, caller: Principal, id: nat, choice: VoteChoice)
    requires Inv(s)
    ensures Inv(VoteOnProposal(s, caller, id, choice).state)
  {
    var o := VoteOnProposal(s, caller, id, choice);
    if o.result.Ok? {
      var t := o.state;
      assert ProposalOk(s, id);
      AppendFresh(s.proposals[id].voters, caller);
      forall k | k in t.submissions ensures SubmissionOk(t, k) {
        assert SubmissionOk(s, k);
      }
      forall k | k in t.proposals ensures ProposalOk(t, k) {
        if k != id { assert ProposalOk(s, k); }
        else {
          var p := t.proposals[k];
          forall i | 0 <= i < |p.voters| ensures p.voters[i] in t.users {
            if i < |s.proposals[id].voters| {
              assert p.voters[i] == s.proposals[id].voters[i];
            }
          }
        }
      }
    }
  }

  lemma TransferTokensPreservesInv(s: State, caller: Principal, to: Principal, amount: nat)
    requires Inv(s)
    ensures Inv(TransferTokens(s, caller, to, amount).state)
  {
    var o := TransferTokens(s, caller, to, amount);
    if o.result.Ok? {
      var t := o.state;
      forall k | k in t.submissions ensures SubmissionOk(t, k) {
        assert SubmissionOk(s, k);
      }
      forall k | k in t.proposals ensures ProposalOk(t, k) {
        assert ProposalOk(s, k);
      }
    }
  }

  lemma ApplyPreservesInv(s: State, r: Request)
    requires Inv(s)
    ensures Inv(Apply(s, r))
  {
    match r.call
    case Register(now) => RegisterUserPreservesInv(s, r.caller, now);
    case Submit(data, now) => SubmitDataPreservesInv(s, r.caller, data, now);
    case Validate(id) => ValidateDataPreservesInv(s, r.caller, id);
    case Propose(description, now) => CreateProposalPreservesInv(s, r.caller, description, now);
    case Vote(id, choice) => VoteOnProposalPreservesInv(s, r.caller, id, choice);
    case Transfer(to, amount) => TransferTokensPreservesInv(s, r.caller, to, amount);
  }

  lemma {:induction false} RunPreservesInv(s: State, trace: seq<Request>)
    requires Inv(s)
    ensures Inv(Run(s, trace))
    decreases |trace|
  {
    if trace != [] {
      ApplyPreservesInv(s, trace[0]);
      RunPreservesInv(Apply(s, trace[0]), trace[1..]);
    }
  }

  /** Every state the canister can reach from installation, spelled out:
      no submission is validated by its submitter, a validator is recorded
      exactly for validated submissions, every proposal is still active, no
      one is among a proposal's voters twice, and the two tallies add up to
      the number of voters. */
  lemma ReachableStatesAreSound(trace: seq<Request>)
    ensures var s := Run(Init, trace);
      && (forall k :: k in s.submissions ==>
            && (s.submissions[k].validated <==> s.submissions[k].validator.Some?)
            && (s.submissions[k].validator.Some? ==>
                  s.submissions[k].validator.value != s.submissions[k].submitter))
      && (forall k :: k in s.proposals ==>
            && s.proposals[k].isActive
            && NoDuplicates(s.proposals[k].voters)
            && s.proposals[k].yesVotes + s.proposals[k].noVotes == |s.proposals[k].voters|)
  {
    InitInv();
    RunPreservesInv(Init, trace);
    var s := Run(Init, trace);
    forall k | k in s.submissions
      ensures (s.submissions[k].validated <==> s.submissions[k].validator.Some?)
      ensures s.submissions[k].validator.Some? ==> s.submissions[k].validator.value != s.submissions[k].submitter
    {
      assert SubmissionOk(s, k);
    }
    forall k | k in s.proposals
      ensures s.proposals[k].isActive && NoDuplicates(s.proposals[k].voters)
      ensures s.proposals[k].yesVotes + s.proposals[k].noVotes == |s.proposals[k].voters|
    {
      assert ProposalOk(s, k);
    }
  }

  // ----- tokens: issuance and conservation -----

  /** Each credit by the reward helper issues exactly `amount` new tokens. */
  lemma RewardUserIssues(s: State, p: Principal, amount: nat)
    ensures var o := RewardUser(s, p, amount);
      SumBalances(o.state.users) == SumBalances(s.users) + (if o.result.Ok? then amount else 0)
  {
    if p in s.users {
      SumBalancesUpdate(s.users, p, s.users[p].(balance := s.users[p].balance + amount));
    }
  }

  /** A successful registration issues the registration grant; a refused
      one issues nothing. */
  lemma RegisterUserIssues(s: State, caller: Principal, now: Timestamp)
    ensures var o := RegisterUser(s, caller, now);
      SumBalances(o.state.users) == SumBalances(s.users) + (if o.result.Ok? then RegistrationReward else 0)
  {
    if caller !in s.users {
      SumBalancesInsert(s.users, caller, User(caller, RegistrationReward, now));
    }
  }

  lemma SubmitDataIssues(s: State, caller: Principal, data: string, now: Timestamp)
    ensures var o := SubmitData(s, caller, data, now);
      SumBalances(o.state.users) == SumBalances(s.users) + (if o.result.Ok? then DataSubmissionReward else 0)
  {
    if caller in s.users {
      SumBalancesUpdate(s.users, caller, s.users[caller].(balance := s.users[caller].balance + DataSubmissionReward));
    }
  }

  lemma ValidateDataIssues(s: State, caller: Principal, id: nat)
    ensures var o := ValidateData(s, caller, id);
      SumBalances(o.state.users) == SumBalances(s.users) + (if o.result.Ok? then ValidationReward else 0)
  {
    if ValidateData(s, caller, id).result.Ok? {
      SumBalancesUpdate(s.users, caller, s.users[caller].(balance := s.users[caller].balance + ValidationReward));
    }
  }

  lemma VoteOnProposalIssues(s: State, caller: Principal, id: nat, choice: VoteChoice)
    ensures var o := VoteOnProposal(s, caller, id, choice);
      SumBalances(o.state.users) == SumBalances(s.users) + (if o.result.Ok? then GovernanceReward else 0)
  {
    if VoteOnProposal(s, caller, id, choice).result.Ok? {
      SumBalancesUpdate(s.users, caller, s.users[caller].(balance := s.users[caller].balance + GovernanceReward));
    }
  }

  /** A transfer between two different users neither creates nor destroys tokens. */
  lemma TransferConservesTokens(s: State, caller: Principal, to: Principal, amount: nat)
    requires caller != to
    ensures SumBalances(TransferTokens(s, caller, to, amount).state.users) == SumBalances(s.users)
  {
    var o := TransferTokens(s, caller, to, amount);
    if o.result.Ok? {
      var sender := s.users[caller];
      var receiver := s.users[to];
      var debited := s.users[caller := sender.(balance := sender.balance - amount)];
      SumBalancesUpdate(s.users, caller, sender.(balance := sender.balance - amount));
      SumBalancesUpdate(debited, to, receiver.(balance := receiver.balance + amount));
      assert o.state.users == debited[to := receiver.(balance := receiver.balance + amount)];
    }
  }

  /** A transfer to oneself is accepted and, because the receiver's old
      record overwrites the debited sender's, mints `amount` new tokens. */
  lemma SelfTransferMints(s: State, caller: Principal, amount: nat)
    requires caller in s.users && s.users[caller].balance >= amount
    ensures var o := TransferTokens(s, caller, caller, amount);
      && o.result == Ok(())
      && o.state.users[caller].balance == s.users[caller].balance + amount
      && SumBalances(o.state.users) == SumBalances(s.users) + amount
  {
    var u := s.users[caller];
    SumBalancesUpdate(s.users, caller, u.(balance := u.balance + amount));
    assert TransferTokens(s, caller, caller, amount).state.users == s.users[caller := u.(balance := u.balance + amount)];
  }

  /** get_total_supply does not follow the tokens actually held: after the
      first registration users hold 1000 tokens while it reports 100000000. */
  lemma TotalSupplyIsNotTheBalanceSum(p: Principal, now: Timestamp)
    ensures var s := RegisterUser(Init, p, now).state;
      && SumBalances(s.users) == RegistrationReward
      && GetTotalSupply(s) == TotalSupply
      && SumBalances(s.users) != GetTotalSupply(s)
  {
    RegisterUserIssues(Init, p, now);
    SumBalancesEmpty();
  }

  // ----- lifecycle of submissions and proposals -----

  /** A validated submission is never changed again by any call: its
      validator is assigned once and for all. */
  lemma ValidatedIsFinal(s: State, r: Request, k: nat)
    requires Inv(s)
    requires k in s.submissions && s.submissions[k].validated
    ensures k in Apply(s, r).submissions && Apply(s, r).submissions[k] == s.submissions[k]
  {
  }

  /** Once a submission has been validated, every further validation of it
      fails and changes nothing, so at most one validation reward is paid
      for it. */
  lemma ValidateTwiceFails(s: State, first: Principal, second: Principal, id: nat)
    requires ValidateData(s, first, id).result.Ok?
    ensures var t := ValidateData(s, first, id).state;
      ValidateData(t, second, id)
        == Outcome(t, Err(if second in t.users then AlreadyValidated else UserNotFound))
  {
  }

  /** A second vote by the same caller on the same proposal is refused with
      AlreadyVoted and changes nothing. */
  lemma VoteTwiceFails(s: State, caller: Principal, id: nat, first: VoteChoice, second: VoteChoice)
    requires VoteOnProposal(s, caller, id, first).result.Ok?
    ensures var t := VoteOnProposal(s, caller, id, first).state;
      VoteOnProposal(t, caller, id, second) == Outcome(t, Err(AlreadyVoted))
  {
  }

  /** No call closes a proposal: an active proposal stays stored and active. */
  lemma ProposalsStayActive(s: State, r: Request, k: nat)
    requires k in s.proposals && s.proposals[k].isActive
    ensures k in Apply(s, r).proposals && Apply(s, r).proposals[k].isActive
  {
  }

  /** No call removes a user, and re-registering is always refused. */
  lemma RegistrationIsPermanent(s: State, r: Request, p: Principal)
    requires p in s.users
    ensures p in Apply(s, r).users
    ensures forall now :: RegisterUser(s, p, now) == Outcome(s, Err(Unauthorized))
  {
  }

  // ----- queries -----

  /** The kept keys of `m` that lie in 1..n. */
  ghost function KeysWhere<T>(m: map<nat, T>, keep: T -> bool, n: nat): set<nat>
  {
    set k | k in KeysMatching(m, keep) && 1 <= k <= n
  }

  /** The ascending list of kept ids is as long as the set of kept ids. */
  lemma {:induction false} IdsWhereCount<T>(m: map<nat, T>, keep: T -> bool, n: nat)
    ensures |IdsWhere(m, keep, n)| == |KeysWhere(m, keep, n)|
  {
    if n > 0 {
      IdsWhereCount(m, keep, n - 1);
      var here, below := KeysWhere(m, keep, n), KeysWhere(m, keep, n - 1);
      assert n !in below;
      if n in m && keep(m[n]) {
        assert here == below + {n};
        assert |IdsWhere(m, keep, n)| == |IdsWhere(m, keep, n - 1)| + 1;
      } else {
        assert here == below;
        assert IdsWhere(m, keep, n) == IdsWhere(m, keep, n - 1);
      }
    }
  }

  /** When every id 1..n is stored, listing all of them gives exactly 1..n. */
  lemma {:induction false} IdsOfFullTable<T>(m: map<nat, T>, n: nat)
    requires forall k :: 1 <= k <= n ==> k in m
    ensures var ids := IdsWhere(m, Always, n);
      |ids| == n && forall i :: 0 <= i < n ==> ids[i] == i + 1
  {
    if n > 0 {
      IdsOfFullTable(m, n - 1);
    }
  }

  /** When every record is kept, filtering keeps every id. */
  lemma {:induction false} IdsAllKept<T>(m: map<nat, T>, keep: T -> bool, n: nat)
    requires forall k :: k in m ==> keep(m[k])
    ensures IdsWhere(m, keep, n) == IdsWhere(m, Always, n)
  {
    if n > 0 {
      IdsAllKept(m, keep, n - 1);
    }
  }

  /** get_unvalidated_data returns exactly the submissions that are not
      validated, in ascending id order. */
  lemma UnvalidatedDataExact(s: State)
    requires Inv(s)
    ensures var r := UnvalidatedData(s);
      && (forall d :: d in r <==> d in s.submissions.Values && !d.validated)
      && (forall i, j :: 0 <= i < j < |r| ==> r[i].id < r[j].id)
  {
    var r := UnvalidatedData(s);
    var ids := IdsWhere(s.submissions, IsUnvalidated, s.dataIdCounter);
    assert r == Records(s.submissions, ids);
    forall d | d in s.submissions.Values && !d.validated
      ensures d in r
    {
      var k :| k in s.submissions && s.submissions[k] == d;
    }
    forall i, j | 0 <= i < j < |r|
      ensures r[i].id < r[j].id
    {
      assert SubmissionOk(s, ids[i]) && SubmissionOk(s, ids[j]);
    }
  }

  /** get_all_proposals returns every proposal once, the one with id i at
      position i - 1. */
  lemma AllProposalsExact(s: State)
    requires Inv(s)
    ensures var r := AllProposals(s);
      && |r| == s.proposalIdCounter
      && (forall i :: 0 <= i < |r| ==> r[i] == s.proposals[i + 1] && r[i].id == i + 1)
  {
    IdsOfFullTable(s.proposals, s.proposalIdCounter);
    forall i | 0 <= i < |AllProposals(s)|
      ensures AllProposals(s)[i].id == i + 1
    {
      assert ProposalOk(s, i + 1);
    }
  }

  /** Since no proposal is ever closed, the active proposals are all of them. */
  lemma ActiveProposalsAreAll(s: State)
    requires Inv(s)
    ensures ActiveProposals(s) == AllProposals(s)
  {
    forall k | k in s.proposals ensures IsActive(s.proposals[k]) {
      assert ProposalOk(s, k);
    }
    IdsAllKept(s.proposals, IsActive, s.proposalIdCounter);
  }

  /** A table whose keys are exactly 1..n holds n records. */
  lemma FullTableSize<T>(m: map<nat, T>, n: nat)
    requires forall k :: k in m <==> 1 <= k <= n
    ensures |m| == n
  {
    IdsWhereCount(m, Always, n);
    IdsOfFullTable(m, n);
    assert m.Keys == KeysWhere(m, Always, n);
  }

  /** Counting a condition every record meets counts the whole table. */
  lemma CountAllKept<T>(m: map<nat, T>, keep: T -> bool)
    requires forall k :: k in m ==> keep(m[k])
    ensures CountWhere(m, keep) == |m|
  {
    assert KeysMatching(m, keep) == m.Keys;
  }

  /** In a table keyed 1..n, the validated and the pending submissions
      together are all of them. */
  lemma CountSplit(m: map<nat, DataSubmission>, n: nat)
    requires forall k :: k in m <==> 1 <= k <= n
    ensures CountWhere(m, IsValidated) + |KeysWhere(m, IsUnvalidated, n)| == |m|
  {
    var validated := KeysMatching(m, IsValidated);
    var pending := KeysWhere(m, IsUnvalidated, n);
    assert validated !! pending by {
      forall k | k in validated ensures k !in pending { }
    }
    assert validated + pending == m.Keys by {
      forall k | k in m ensures k in validated + pending {
        if m[k].validated { assert k in validated; } else { assert k in pending; }
      }
    }
  }

  /** Validated and pending submissions together are all submissions. */
  lemma SubmissionsSplit(s: State)
    requires Inv(s)
    ensures CountWhere(s.submissions, IsValidated) + |UnvalidatedData(s)| == |s.submissions|
  {
    IdsWhereCount(s.submissions, IsUnvalidated, s.dataIdCounter);
    CountSplit(s.submissions, s.dataIdCounter);
  }

  /** Every stored proposal is counted as active. */
  lemma ActiveCountIsAll(s: State)
    requires Inv(s)
    ensures CountWhere(s.proposals, IsActive) == |s.proposals|
  {
    forall k | k in s.proposals ensures IsActive(s.proposals[k]) { assert ProposalOk(s, k); }
    CountAllKept(s.proposals, IsActive);
  }

  /** The counters of get_system_stats agree with the id counters and with
      the other queries: every proposal is counted as active, and validated
      plus unvalidated submissions make up all submissions. */
  lemma StatsMatchQueries(s: State)
    requires Inv(s)
    ensures var stats := SystemStats(s);
      && stats["total_users"] == |AllUsers(s)|
      && stats["total_proposals"] == s.proposalIdCounter == |AllProposals(s)|
      && stats["active_proposals"] == |ActiveProposals(s)| == stats["total_proposals"]
      && stats["total_data_submissions"] == s.dataIdCounter
      && stats["validated_data"] + |UnvalidatedData(s)| == stats["total_data_submissions"]
  {
    AllProposalsExact(s);
    ActiveProposalsAreAll(s);
    FullTableSize(s.proposals, s.proposalIdCounter);
    FullTableSize(s.submissions, s.dataIdCounter);
    ActiveCountIsAll(s);
    SubmissionsSplit(s);
  }

  /** A new submission is listed as pending, under a fresh id. */
  lemma SubmittedIsPending(s: State, caller: Principal, data: string, now: Timestamp)
    requires Inv(s)
    ensures var o := SubmitData(s, caller, data, now);
      o.result.Ok? ==>
        && o.result.value in UnvalidatedData(o.state)
        && o.result.value.id !in s.submissions
  {
    var o := SubmitData(s, caller, data, now);
    if o.result.Ok? {
      SubmitDataPreservesInv(s, caller, data, now);
      UnvalidatedDataExact(o.state);
      assert o.state.submissions[o.result.value.id] == o.result.value;
    }
  }

  /** A validated submission is no longer listed as pending. */
  lemma ValidatedLeavesPending(s: State, caller: Principal, id: nat)
    requires Inv(s)
    ensures var o := ValidateData(s, caller, id);
      o.result.Ok? ==> forall i :: 0 <= i < |UnvalidatedData(o.state)| ==> UnvalidatedData(o.state)[i].id != id
  {
    var o := ValidateData(s, caller, id);
    if o.result.Ok? {
      ValidateDataPreservesInv(s, caller, id);
      var t := o.state;
      forall i | 0 <= i < |UnvalidatedData(t)|
        ensures UnvalidatedData(t)[i].id != id
      {
        var d := UnvalidatedData(t)[i];
        var k :| k in t.submissions && t.submissions[k] == d;
        assert SubmissionOk(t, k);
      }
    }
  }

  // ----- a complete run -----

  /** Two users register; the first submits an observation, fails to
      validate it, the second validates it, and a later attempt by the
      first is refused as already validated. */
  lemma EndToEndScenario(u1: Principal, u2: Principal, data: string, t1: Timestamp, t2: Timestamp, t3: Timestamp)
    requires u1 != u2
    ensures
      var r1 := RegisterUser(Init, u1, t1);
      var r2 := SubmitData(r1.state, u1, data, t2);
      var r3 := RegisterUser(r2.state, u2, t3);
      var own := ValidateData(r3.state, u1, 1);
      var r4 := ValidateData(r3.state, u2, 1);
      var r5 := ValidateData(r4.state, u1, 1);
      && r1.result.Ok? && r1.state.users[u1].balance == 1000
      && r2.result == Ok(DataSubmission(1, u1, data, false, None, t2))
      && r2.state.users[u1].balance == 1050
      && r3.result.Ok? && r3.state.users[u2].balance == 1000
      && own == Outcome(r3.state, Err(Unauthorized))
      && r4.result.Ok? && r4.state.users[u2].balance == 1025 && r4.state.users[u1].balance == 1050
      && r4.state.submissions[1].validated && r4.state.submissions[1].validator == Some(u2)
      && r5 == Outcome(r4.state, Err(AlreadyValidated))
      && SumBalances(r4.state.users) == 2075
  {
    var r1 := RegisterUser(Init, u1, t1);
    var r2 := SubmitData(r1.state, u1, data, t2);
    var r3 := RegisterUser(r2.state, u2, t3);
    var r4 := ValidateData(r3.state, u2, 1);
    SumBalancesEmpty();
    RegisterUserIssues(Init, u1, t1);
    SubmitDataIssues(r1.state, u1, data, t2);
    RegisterUserIssues(r2.state, u2, t3);
    ValidateDataIssues(r3.state, u2, 1);
  }
}
