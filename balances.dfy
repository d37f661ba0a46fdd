/** The total number of tokens held by users, and how crediting one user
    changes it. This is the quantity the ledger's issuance and conservation
    properties are stated in. */
module Balances {
  import opened Types

  /** Some element of a non-empty set. */
  ghost function Pick<K>(ks: set<K>): K
    requires ks != {}
  {
    var k :| k in ks; k
  }

  /** Sum of the balances of the users whose keys are in `ks`. */
  ghost function SumOver(users: map<Principal, User>, ks: set<Principal>): nat
    requires ks <= users.Keys
    decreases ks
  {
    if ks == {} then 0
    else
      var p := Pick(ks);
      users[p].balance + SumOver(users, ks - {p})
  }

  /** Sum of all balances in the users table. */
  ghost function SumBalances(users: map<Principal, User>): nat
  {
    SumOver(users, users.Keys)
  }

  /** The sum does not depend on which key is taken out first. */
  lemma {:induction false} SumOverRemove(users: map<Principal, User>, ks: set<Principal>, q: Principal)
    requires ks <= users.Keys && q in ks
    ensures SumOver(users, ks) == users[q].balance + SumOver(users, ks - {q})
    decreases ks
  {
    var p := Pick(ks);
    if p != q {
      calc {
        SumOver(users, ks);
        users[p].balance + SumOver(users, ks - {p});
        { SumOverRemove(users, ks - {p}, q); }
        users[p].balance + users[q].balance + SumOver(users, ks - {p} - {q});
        { assert ks - {p} - {q} == ks - {q} - {p}; }
        users[q].balance + (users[p].balance + SumOver(users, ks - {q} - {p}));
        { SumOverRemove(users, ks - {q}, p); }
        users[q].balance + SumOver(users, ks - {q});
      }
    }
  }

  /** Two tables that agree on the users in `ks` have the same sum over `ks`. */
  lemma {:induction false} SumOverAgree(a: map<Principal, User>, b: map<Principal, User>, ks: set<Principal>)
    requires ks <= a.Keys && ks <= b.Keys
    requires forall p :: p in ks ==> a[p].balance == b[p].balance
    ensures SumOver(a, ks) == SumOver(b, ks)
    decreases ks
  {
    if ks != {} {
      var p := Pick(ks);
      SumOverAgree(a, b, ks - {p});
    }
  }

  /** Replacing an existing user's record changes the sum by the difference
      of the two balances. */
  lemma SumBalancesUpdate(users: map<Principal, User>, q: Principal, u: User)
    requires q in users
    ensures SumBalances(users[q := u]) + users[q].balance == SumBalances(users) + u.balance
  {
    var after := users[q := u];
    assert after.Keys == users.Keys;
    SumOverRemove(users, users.Keys, q);
    SumOverRemove(after, users.Keys, q);
    SumOverAgree(users, after, users.Keys - {q});
  }

  /** Adding a new user adds that user's balance to the sum. */
  lemma SumBalancesInsert(users: map<Principal, User>, q: Principal, u: User)
    requires q !in users
    ensures SumBalances(users[q := u]) == SumBalances(users) + u.balance
  {
    var after := users[q := u];
    assert after.Keys == users.Keys + {q};
    assert after.Keys - {q} == users.Keys;
    SumOverRemove(after, after.Keys, q);
    SumOverAgree(users, after, users.Keys);
  }

  /** The table with no users holds no tokens. */
  lemma SumBalancesEmpty()
    ensures SumBalances(map[]) == 0
  {
  }
}
