/** The canister's query calls, as functions of the state. The id-keyed
    tables are listed in ascending id order, the order in which the canister
    walks its B-tree maps; this model walks the ids 1..counter. */
module Queries {
  import opened Types
  import opened Ledger

  /** The keys in 1..n of `m` whose records satisfy `keep`, ascending. */
  function IdsWhere<T>(m: map<nat, T>, keep: T -> bool, n: nat): (ids: seq<nat>)
    ensures forall i :: 0 <= i < |ids| ==> 1 <= ids[i] <= n && ids[i] in m && keep(m[ids[i]])
    ensures forall k {:trigger k in ids} :: 1 <= k <= n && k in m && keep(m[k]) ==> k in ids
    ensures forall i, j :: 0 <= i < j < |ids| ==> ids[i] < ids[j]
  {
    if n == 0 then []
    else
      var below := IdsWhere(m, keep, n - 1);
      if n in m && keep(m[n]) then below + [n] else below
  }

  /** The records of `m` stored under `ids`, in the order of `ids`. */
  function Records<K, T>(m: map<K, T>, ids: seq<K>): (r: seq<T>)
    requires forall i :: 0 <= i < |ids| ==> ids[i] in m
    ensures |r| == |ids|
    ensures forall i :: 0 <= i < |ids| ==> r[i] == m[ids[i]]
    ensures forall k {:trigger k in ids} :: k in ids ==> m[k] in r
  {
    if ids == [] then [] else [m[ids[0]]] + Records(m, ids[1..])
  }

  predicate IsUnvalidated(d: DataSubmission) { !d.validated }
  predicate IsValidated(d: DataSubmission) { d.validated }
  predicate IsActive(p: Proposal) { p.isActive }
  predicate Always<T>(x: T) { true }

  /** get_unvalidated_data */
  function UnvalidatedData(s: State): (r: seq<DataSubmission>)
    ensures forall i :: 0 <= i < |r| ==> r[i] in s.submissions.Values && !r[i].validated
    ensures forall k :: 1 <= k <= s.dataIdCounter && k in s.submissions && !s.submissions[k].validated ==>
      s.submissions[k] in r
  {
    var ids := IdsWhere(s.submissions, IsUnvalidated, s.dataIdCounter);
    var r := Records(s.submissions, ids);
    forall k | 1 <= k <= s.dataIdCounter && k in s.submissions && !s.submissions[k].validated
      ensures s.submissions[k] in r
    {
      assert k in ids;
    }
    r
  }

  /** get_all_proposals */
  function AllProposals(s: State): (r: seq<Proposal>)
    ensures forall i :: 0 <= i < |r| ==> r[i] in s.proposals.Values
    ensures forall k :: 1 <= k <= s.proposalIdCounter && k in s.proposals ==> s.proposals[k] in r
  {
    var ids := IdsWhere(s.proposals, Always, s.proposalIdCounter);
    var r := Records(s.proposals, ids);
    forall k | 1 <= k <= s.proposalIdCounter && k in s.proposals
      ensures s.proposals[k] in r
    {
      assert k in ids;
    }
    r
  }

  /** get_active_proposals */
  function ActiveProposals(s: State): (r: seq<Proposal>)
    ensures forall i :: 0 <= i < |r| ==> r[i] in s.proposals.Values && r[i].isActive
    ensures forall k :: 1 <= k <= s.proposalIdCounter && k in s.proposals && s.proposals[k].isActive ==>
      s.proposals[k] in r
  {
    var ids := IdsWhere(s.proposals, IsActive, s.proposalIdCounter);
    var r := Records(s.proposals, ids);
    forall k | 1 <= k <= s.proposalIdCounter && k in s.proposals && s.proposals[k].isActive
      ensures s.proposals[k] in r
    {
      assert k in ids;
    }
    r
  }

  /** get_proposal */
  function GetProposal(s: State, id: nat): (r: Result<Proposal>)
    ensures r.Ok? <==> id in s.proposals
    ensures r.Ok? ==> r.value == s.proposals[id]
    ensures r.Err? ==> r.error == ProposalNotFound
  {
    if id in s.proposals then Ok(s.proposals[id]) else Err(ProposalNotFound)
  }

  /** get_user_balance, for the calling principal */
  function GetUserBalance(s: State, caller: Principal): (r: Result<nat>)
    ensures r.Ok? <==> caller in s.users
    ensures r.Ok? ==> r.value == s.users[caller].balance
    ensures r.Err? ==> r.error == UserNotFound
  {
    if caller in s.users then Ok(s.users[caller].balance) else Err(UserNotFound)
  }

  /** get_user_info, for the calling principal */
  function GetUserInfo(s: State, caller: Principal): (r: Result<User>)
    ensures r.Ok? <==> caller in s.users
    ensures r.Ok? ==> r.value == s.users[caller]
    ensures r.Err? ==> r.error == UserNotFound
  {
    if caller in s.users then Ok(s.users[caller]) else Err(UserNotFound)
  }

  /** is_user_registered */
  function IsUserRegistered(s: State, p: Principal): (b: bool)
    ensures b <==> p in s.users
  {
    p in s.users
  }

  /** get_total_supply: the configured constant, whatever the state. */
  function GetTotalSupply(s: State): (r: nat)
    ensures r == 100_000_000
  {
    TotalSupply
  }

  /** The principals of `ks`, each once, in an order this model leaves open. */
  ghost function Listing(ks: set<Principal>): (r: seq<Principal>)
    ensures |r| == |ks|
    ensures forall p :: p in r <==> p in ks
    ensures NoDuplicates(r)
    decreases ks
  {
    if ks == {} then []
    else
      var p :| p in ks;
      [p] + Listing(ks - {p})
  }

  /** get_all_users: every user record once. */
  ghost function AllUsers(s: State): (r: seq<User>)
    ensures |r| == |s.users|
    ensures forall p :: p in s.users ==> s.users[p] in r
    ensures forall i :: 0 <= i < |r| ==> r[i] in s.users.Values
  {
    var ps := Listing(s.users.Keys);
    ListedRecords(s.users, ps);
    Records(s.users, ps)
  }

  /** Looking up a listing of all keys yields every record of the table. */
  lemma ListedRecords(m: map<Principal, User>, ps: seq<Principal>)
    requires |ps| == |m.Keys|
    requires forall p :: p in ps <==> p in m
    ensures var r := Records(m, ps);
      && |r| == |m|
      && (forall p :: p in m ==> m[p] in r)
      && (forall i :: 0 <= i < |r| ==> r[i] in m.Values)
  {
    var r := Records(m, ps);
    assert |m.Keys| == |m|;
    forall p | p in m
      ensures m[p] in r
    {
      assert p in ps;
    }
    forall i | 0 <= i < |r|
      ensures r[i] in m.Values
    {
      assert ps[i] in m;
    }
  }

  /** The keys of the records of `m` that satisfy `keep`. */
  function KeysMatching<T>(m: map<nat, T>, keep: T -> bool): set<nat>
  {
    set k | k in m && keep(m[k])
  }

  /** How many records of `m` satisfy `keep`. */
  function CountWhere<T>(m: map<nat, T>, keep: T -> bool): nat
  {
    |KeysMatching(m, keep)|
  }

  /** get_system_stats: six named counters. */
  function SystemStats(s: State): (stats: map<string, nat>)
    ensures "total_users" in stats && stats["total_users"] == |s.users|
    ensures "total_proposals" in stats && stats["total_proposals"] == |s.proposals|
    ensures "active_proposals" in stats && stats["active_proposals"] == CountWhere(s.proposals, IsActive)
    ensures "total_data_submissions" in stats && stats["total_data_submissions"] == |s.submissions|
    ensures "validated_data" in stats && stats["validated_data"] == CountWhere(s.submissions, IsValidated)
    ensures "total_supply" in stats && stats["total_supply"] == TotalSupply
    ensures stats.Keys == {"total_users", "total_proposals", "active_proposals",
                           "total_data_submissions", "validated_data", "total_supply"}
  {
    map[
      "total_users" := |s.users|,
      "total_proposals" := |s.proposals|,
      "active_proposals" := CountWhere(s.proposals, IsActive),
      "total_data_submissions" := |s.submissions|,
      "validated_data" := CountWhere(s.submissions, IsValidated),
      "total_supply" := TotalSupply]
  }
}
