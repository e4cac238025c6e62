/** The shared user ledger: one profile per user, holding the leveling
    statistics and the credit balance the gambling games bet against.
    Both the leveling and the gambling cogs create a missing profile with
    the same defaults before they change it. */
module Profiles {
  import opened Util

  datatype Profile = Profile(
    xp: int,
    level: int,
    credits: int,
    reputation: int,
    voiceTime: int,
    messagesSent: int,
    lastDaily: real,
    lastRep: Option<real>,
    description: string)

  const StartingCredits: int := 100
  const DefaultDescription: string := "No description set."

  /** The profile a new user is given. */
  function DefaultProfile(): Profile
  {
    Profile(0, 0, StartingCredits, 0, 0, 0, 0.0, None, DefaultDescription)
  }

  /** The profile get-or-create yields: the stored one, else the defaults. */
  function Lookup(users: map<UserId, Profile>, u: UserId): (p: Profile)
    ensures u !in users ==> p == DefaultProfile()
    ensures u in users ==> p == users[u]
  {
    if u in users then users[u] else DefaultProfile()
  }

  /** The ledger after adding amount to u's balance (creating u's profile). */
  function AddCredits(users: map<UserId, Profile>, u: UserId, amount: int): map<UserId, Profile>
  {
    users[u := Lookup(users, u).(credits := Lookup(users, u).credits + amount)]
  }

  /** Adding credits gives u a profile (the default one if u had none), moves
      only u's balance, by exactly the amount, and leaves every other user
      alone; so the ledger stays free of negative balances when u's new
      balance is not negative. */
  lemma AddCreditsEffect(users: map<UserId, Profile>, u: UserId, amount: int)
    ensures var r := AddCredits(users, u, amount);
      r.Keys == users.Keys + {u}
      && r[u] == Lookup(users, u).(credits := Lookup(users, u).credits + amount)
      && (forall v | v in users && v != u :: r[v] == users[v])
      && (CreditsNonNegative(users) && Lookup(users, u).credits + amount >= 0 ==> CreditsNonNegative(r))
  {
  }

  /** No balance in the ledger is negative. */
  ghost predicate CreditsNonNegative(users: map<UserId, Profile>)
  {
    forall u | u in users :: users[u].credits >= 0
  }

  class UserStore {
    var users: map<UserId, Profile>

    ghost predicate Valid()
      reads this
    {
      CreditsNonNegative(users)
    }

    constructor ()
      ensures users == map[] && Valid()
    {
      users := map[];
    }

    /** The balance the gambling cog reads: 0 for a user without a profile. */
    function Credits(u: UserId): (c: int)
      reads this
      ensures u !in users ==> c == 0
      ensures u in users ==> c == users[u].credits
      ensures Valid() ==> c >= 0
    {
      if u in users then users[u].credits else 0
    }

    /** Get or create the profile of u. */
    method GetUserData(u: UserId) returns (p: Profile)
      modifies this
      ensures p == Lookup(old(users), u)
      ensures users == old(users)[u := p]
      ensures old(Valid()) ==> Valid()
    {
      if u !in users {
        users := users[u := DefaultProfile()];
      }
      p := users[u];
    }

    /** Store a changed profile of u. */
    method Put(u: UserId, p: Profile)
      modifies this
      ensures users == old(users)[u := p]
    {
      users := users[u := p];
    }

    /** Add amount to u's balance (creating the profile first) and return
        the new balance. */
    method UpdateCredits(u: UserId, amount: int) returns (balance: int)
      modifies this
      ensures balance == Lookup(old(users), u).credits + amount
      ensures users == AddCredits(old(users), u, amount)
      ensures old(Valid()) && balance >= 0 ==> Valid()
    {
      var p := GetUserData(u);
      balance := p.credits + amount;
      users := users[u := p.(credits := balance)];
    }
  }
}
