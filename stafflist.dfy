/** The staff list: the members of a fixed set of staff roles, shown under
    the roles in hierarchy order (a lower weight ranks higher), each member
    under the highest-ranking role they hold and no other. */
module StaffList {
  import opened Util
  import opened Decimal

  datatype Status = Online | Idle | DoNotDisturb | Offline | OtherStatus

  datatype Member = Member(id: UserId, displayName: string, status: Status)

  /** A role as the guild reports it: its name and its members in order. */
  datatype GuildRole = GuildRole(name: string, members: seq<Member>)

  /** A collected role with its hierarchy weight. */
  datatype Entry = Entry(roleId: RoleId, name: string, members: seq<Member>, weight: int)

  /** One field of the staff list embed. */
  datatype Field = Field(name: string, value: string)

  const UnknownWeight: int := 999

  /** The configured staff roles, highest rank first. */
  const TargetRoles: seq<RoleId> := [
    1374789771964059792, 1294400888252796969, 1295064164766584833,
    1294400444998877196, 1295064503641182280, 1294400316439134268,
    1294400210096885831, 1295064684508221571, 1295064730461016074,
    1294671778769141760]

  /** Their initial weights, 1 to 10 in that order. */
  const DefaultHierarchy: map<RoleId, int> := map[
    1374789771964059792 := 1, 1294400888252796969 := 2, 1295064164766584833 := 3,
    1294400444998877196 := 4, 1295064503641182280 := 5, 1294400316439134268 := 6,
    1294400210096885831 := 7, 1295064684508221571 := 8, 1295064730461016074 := 9,
    1294671778769141760 := 10]

  predicate NoDuplicates(s: seq<RoleId>)
  {
    forall i, j | 0 <= i < j < |s| :: s[i] != s[j]
  }

  lemma DefaultsWellFormed()
    ensures NoDuplicates(TargetRoles)
    ensures forall r | r in TargetRoles :: r in DefaultHierarchy
  {
  }

  /** role_hierarchy.get(role_id, 999) */
  function WeightIn(hierarchy: map<RoleId, int>, r: RoleId): (w: int)
    ensures r in hierarchy ==> w == hierarchy[r]
    ensures r !in hierarchy ==> w == UnknownWeight
  {
    if r in hierarchy then hierarchy[r] else UnknownWeight
  }

  // ---------------------------------------------------------------------
  // Collecting and ordering the roles

  /** The target roles the guild has, in list order; when needMembers,
      only those with at least one member. */
  function Collect(targets: seq<RoleId>, guild: map<RoleId, GuildRole>, hierarchy: map<RoleId, int>, needMembers: bool): (r: seq<Entry>)
    ensures forall e | e in r ::
      e.roleId in guild && e.roleId in targets
      && e.name == guild[e.roleId].name && e.members == guild[e.roleId].members
      && e.weight == WeightIn(hierarchy, e.roleId)
      && (needMembers ==> e.members != [])
    ensures forall t | t in targets && t in guild && (!needMembers || guild[t].members != []) ::
      exists e :: e in r && e.roleId == t
    decreases |targets|
  {
    if targets == [] then []
    else
      var rest := Collect(targets[1..], guild, hierarchy, needMembers);
      var t := targets[0];
      if t in guild && (!needMembers || guild[t].members != []) then
        [Entry(t, guild[t].name, guild[t].members, WeightIn(hierarchy, t))] + rest
      else rest
  }

  predicate SortedByWeight(s: seq<Entry>)
  {
    forall i, j | 0 <= i < j < |s| :: s[i].weight <= s[j].weight
  }

  /** Place e after every element of a sorted s whose weight is at most
      e's, so that equal weights keep their order. */
  function InsertByWeight(s: seq<Entry>, e: Entry): seq<Entry>
    decreases |s|
  {
    if s == [] || s[|s| - 1].weight <= e.weight then s + [e]
    else InsertByWeight(s[..|s| - 1], e) + [s[|s| - 1]]
  }

  /** sorted(..., key=weight): Python's sort is stable. */
  function SortByWeight(s: seq<Entry>): seq<Entry>
    decreases |s|
  {
    if s == [] then [] else InsertByWeight(SortByWeight(s[..|s| - 1]), s[|s| - 1])
  }

  /** The elements of s with weight w, in order. */
  function WithWeight(s: seq<Entry>, w: int): seq<Entry>
    decreases |s|
  {
    if s == [] then []
    else WithWeight(s[..|s| - 1], w) + (if s[|s| - 1].weight == w then [s[|s| - 1]] else [])
  }

  lemma {:induction false} WithWeightAppend(a: seq<Entry>, b: seq<Entry>, w: int)
    ensures WithWeight(a + b, w) == WithWeight(a, w) + WithWeight(b, w)
    decreases |b|
  {
    if b != [] {
      var b' := b[..|b| - 1];
      assert (a + b)[..|a + b| - 1] == a + b';
      WithWeightAppend(a, b', w);
    } else {
      assert a + b == a;
    }
  }

  predicate AllAtMost(s: seq<Entry>, b: int)
  {
    forall i | 0 <= i < |s| :: s[i].weight <= b
  }

  lemma {:induction false} InsertBound(s: seq<Entry>, e: Entry, b: int)
    requires AllAtMost(s, b) && e.weight <= b
    ensures AllAtMost(InsertByWeight(s, e), b)
    decreases |s|
  {
    if !(s == [] || s[|s| - 1].weight <= e.weight) {
      InsertBound(s[..|s| - 1], e, b);
    }
  }

  lemma {:induction false} InsertSorted(s: seq<Entry>, e: Entry)
    requires SortedByWeight(s)
    ensures SortedByWeight(InsertByWeight(s, e))
    decreases |s|
  {
    if !(s == [] || s[|s| - 1].weight <= e.weight) {
      var s' := s[..|s| - 1];
      InsertSorted(s', e);
      InsertBound(s', e, s[|s| - 1].weight);
    }
  }

  lemma {:induction false} InsertMultiset(s: seq<Entry>, e: Entry)
    ensures multiset(InsertByWeight(s, e)) == multiset(s) + multiset{e}
    decreases |s|
  {
    if !(s == [] || s[|s| - 1].weight <= e.weight) {
      var s' := s[..|s| - 1];
      InsertMultiset(s', e);
      assert s == s' + [s[|s| - 1]];
    }
  }

  lemma {:induction false} InsertWithWeight(s: seq<Entry>, e: Entry, w: int)
    requires SortedByWeight(s)
    ensures WithWeight(InsertByWeight(s, e), w) == WithWeight(s, w) + (if e.weight == w then [e] else [])
    decreases |s|
  {
    if s == [] || s[|s| - 1].weight <= e.weight {
      WithWeightAppend(s, [e], w);
      assert [e][..0] == [];
    } else {
      var s' := s[..|s| - 1];
      var last := s[|s| - 1];
      InsertWithWeight(s', e, w);
      var t := InsertByWeight(s', e);
      assert (t + [last])[..|t|] == t;
    }
  }

  /** The sort puts the roles in ascending weight. */
  lemma {:induction false} SortSorted(s: seq<Entry>)
    ensures SortedByWeight(SortByWeight(s))
    decreases |s|
  {
    if s != [] {
      SortSorted(s[..|s| - 1]);
      InsertSorted(SortByWeight(s[..|s| - 1]), s[|s| - 1]);
    }
  }

  /** The sort loses and adds no role. */
  lemma {:induction false} SortPermutes(s: seq<Entry>)
    ensures multiset(SortByWeight(s)) == multiset(s)
    decreases |s|
  {
    if s != [] {
      var s' := s[..|s| - 1];
      SortPermutes(s');
      InsertMultiset(SortByWeight(s'), s[|s| - 1]);
      assert s == s' + [s[|s| - 1]];
    }
  }

  /** Roles of equal weight keep their list order. */
  lemma {:induction false} SortStable(s: seq<Entry>, w: int)
    ensures WithWeight(SortByWeight(s), w) == WithWeight(s, w)
    decreases |s|
  {
    if s != [] {
      var s' := s[..|s| - 1];
      SortStable(s', w);
      SortSorted(s');
      InsertWithWeight(SortByWeight(s'), s[|s| - 1], w);
    }
  }

  // ---------------------------------------------------------------------
  // De-duplication

  function IdsOf(ms: seq<Member>): set<UserId>
    decreases |ms|
  {
    if ms == [] then {} else {ms[0].id} + IdsOf(ms[1..])
  }

  lemma {:induction false} InIdsOf(ms: seq<Member>, k: nat)
    requires k < |ms|
    ensures ms[k].id in IdsOf(ms)
    decreases k
  {
    if k > 0 {
      InIdsOf(ms[1..], k - 1);
      assert ms[1..][k - 1] == ms[k];
    }
  }

  lemma {:induction false} IdWitness(ms: seq<Member>, x: UserId) returns (k: nat)
    requires x in IdsOf(ms)
    ensures k < |ms| && ms[k].id == x
    decreases |ms|
  {
    if ms[0].id == x {
      k := 0;
    } else {
      var k' := IdWitness(ms[1..], x);
      k := k' + 1;
    }
  }

  lemma {:induction false} IdsOfAppend(ms: seq<Member>, m: Member)
    ensures IdsOf(ms + [m]) == IdsOf(ms) + {m.id}
    decreases |ms|
  {
    if ms == [] {
      assert [] + [m] == [m];
      assert [m][1..] == [];
    } else {
      assert (ms + [m])[1..] == ms[1..] + [m];
      IdsOfAppend(ms[1..], m);
    }
  }

  /** Members of ms not yet listed, in order. */
  function Unique(ms: seq<Member>, listed: set<UserId>): (r: seq<Member>)
    ensures |r| <= |ms|
    decreases |ms|
  {
    if ms == [] then []
    else (if ms[0].id !in listed then [ms[0]] else []) + Unique(ms[1..], listed)
  }

  /** A member is kept exactly when the role has them and they are not yet
      listed. */
  lemma {:induction false} UniqueMember(ms: seq<Member>, listed: set<UserId>, m: Member)
    ensures m in Unique(ms, listed) <==> m in ms && m.id !in listed
    decreases |ms|
  {
    if ms != [] {
      UniqueMember(ms[1..], listed, m);
      assert ms == [ms[0]] + ms[1..];
    }
  }

  lemma {:induction false} UniqueIds(ms: seq<Member>, listed: set<UserId>)
    ensures IdsOf(Unique(ms, listed)) == IdsOf(ms) - listed
    decreases |ms|
  {
    if ms != [] {
      UniqueIds(ms[1..], listed);
      var rest := Unique(ms[1..], listed);
      if ms[0].id !in listed {
        assert ([ms[0]] + rest)[1..] == rest;
      } else {
        assert [] + rest == rest;
      }
    }
  }

  /** A role keeps all its members exactly when none was listed before. */
  lemma {:induction false} UniqueAll(ms: seq<Member>, listed: set<UserId>)
    ensures |Unique(ms, listed)| == |ms| <==> forall k | 0 <= k < |ms| :: ms[k].id !in listed
    decreases |ms|
  {
    if ms != [] {
      UniqueAll(ms[1..], listed);
      assert forall k | 0 <= k < |ms| - 1 :: ms[1..][k] == ms[k + 1];
      if ms[0].id !in listed {
        forall k | 0 <= k < |ms| && 0 < k
          ensures ms[k] == ms[1..][k - 1]
        {
        }
      }
    }
  }

  /** The unique members of each role, in role order, listing each member
      under the first role that has them. */
  function Dedup(roles: seq<Entry>, listed: set<UserId>): (r: seq<seq<Member>>)
    ensures |r| == |roles|
    decreases |roles|
  {
    if roles == [] then []
    else
      var u := Unique(roles[0].members, listed);
      [u] + Dedup(roles[1..], listed + IdsOf(u))
  }

  /** A member appears under role i exactly when role i has them and no
      earlier role does (and they were not listed before). */
  lemma {:induction false} DedupPlacement(roles: seq<Entry>, listed: set<UserId>, i: nat, m: Member)
    requires i < |roles|
    ensures m in Dedup(roles, listed)[i] <==>
      m in roles[i].members && m.id !in listed
      && forall j | 0 <= j < i :: m.id !in IdsOf(roles[j].members)
    decreases i
  {
    var u := Unique(roles[0].members, listed);
    if i == 0 {
      UniqueMember(roles[0].members, listed, m);
    } else {
      var rest := roles[1..];
      UniqueIds(roles[0].members, listed);
      DedupPlacement(rest, listed + IdsOf(u), i - 1, m);
      assert Dedup(roles, listed)[i] == Dedup(rest, listed + IdsOf(u))[i - 1];
      assert rest[i - 1] == roles[i];
      if forall j | 0 <= j < i :: m.id !in IdsOf(roles[j].members) {
        forall j | 0 <= j < i - 1
          ensures m.id !in IdsOf(rest[j].members)
        {
          assert rest[j] == roles[j + 1];
        }
      }
      if m.id !in IdsOf(roles[0].members) && forall j | 0 <= j < i - 1 :: m.id !in IdsOf(rest[j].members) {
        forall j | 0 <= j < i
          ensures m.id !in IdsOf(roles[j].members)
        {
          if j > 0 {
            assert roles[j] == rest[j - 1];
          }
        }
      }
    }
  }

  /** No member is listed under two roles. */
  lemma ListedOnce(roles: seq<Entry>, i: nat, j: nat, a: Member, b: Member)
    requires i < j < |roles|
    requires a in Dedup(roles, {})[i] && b in Dedup(roles, {})[j]
    ensures a.id != b.id
  {
    DedupPlacement(roles, {}, i, a);
    DedupPlacement(roles, {}, j, b);
    var k :| 0 <= k < |roles[i].members| && roles[i].members[k] == a;
    InIdsOf(roles[i].members, k);
  }

  function SumLengths(s: seq<seq<Member>>): nat
    decreases |s|
  {
    if s == [] then 0 else |s[0]| + SumLengths(s[1..])
  }

  lemma {:induction false} SumLengthsAppend(s: seq<seq<Member>>, u: seq<Member>)
    ensures SumLengths(s + [u]) == SumLengths(s) + |u|
    decreases |s|
  {
    if s == [] {
      assert [] + [u] == [u];
      assert [u][1..] == [];
    } else {
      assert (s + [u])[1..] == s[1..] + [u];
      SumLengthsAppend(s[1..], u);
    }
  }

  /** The ids of all the roles' members. */
  function UnionIds(roles: seq<Entry>): set<UserId>
    decreases |roles|
  {
    if roles == [] then {} else IdsOf(roles[0].members) + UnionIds(roles[1..])
  }

  lemma {:induction false} InUnion(roles: seq<Entry>, j: nat, x: UserId)
    requires j < |roles| && x in IdsOf(roles[j].members)
    ensures x in UnionIds(roles)
    decreases j
  {
    if j > 0 {
      assert roles[1..][j - 1] == roles[j];
      InUnion(roles[1..], j - 1, x);
    }
  }

  lemma {:induction false} UnionWitness(roles: seq<Entry>, x: UserId) returns (j: nat)
    requires x in UnionIds(roles)
    ensures j < |roles| && x in IdsOf(roles[j].members)
    decreases |roles|
  {
    if x in IdsOf(roles[0].members) {
      j := 0;
    } else {
      var j' := UnionWitness(roles[1..], x);
      assert roles[1..][j'] == roles[j' + 1];
      j := j' + 1;
    }
  }

  /** No member occurs twice in ms. */
  predicate NoRepeats(ms: seq<Member>)
    decreases |ms|
  {
    ms == [] || (ms[0].id !in IdsOf(ms[1..]) && NoRepeats(ms[1..]))
  }

  lemma {:induction false} NoRepeatsCard(ms: seq<Member>)
    requires NoRepeats(ms)
    ensures |IdsOf(ms)| == |ms|
    decreases |ms|
  {
    if ms != [] {
      NoRepeatsCard(ms[1..]);
    }
  }

  lemma {:induction false} UniqueNoRepeats(ms: seq<Member>, listed: set<UserId>)
    requires NoRepeats(ms)
    ensures NoRepeats(Unique(ms, listed))
    decreases |ms|
  {
    if ms != [] {
      var rest := Unique(ms[1..], listed);
      UniqueNoRepeats(ms[1..], listed);
      if ms[0].id !in listed {
        UniqueIds(ms[1..], listed);
        assert ([ms[0]] + rest)[1..] == rest;
      } else {
        assert [] + rest == rest;
      }
    }
  }

  /** The total is the number of distinct staff members, provided the guild
      reports no member twice in one role. */
  lemma {:induction false} TotalIsUnion(roles: seq<Entry>, listed: set<UserId>)
    requires forall i | 0 <= i < |roles| :: NoRepeats(roles[i].members)
    ensures SumLengths(Dedup(roles, listed)) == |UnionIds(roles) - listed|
    decreases |roles|
  {
    if roles != [] {
      var ms := roles[0].members;
      var u := Unique(ms, listed);
      var listed' := listed + IdsOf(u);
      var rest := roles[1..];
      assert forall i | 0 <= i < |rest| :: rest[i] == roles[i + 1];
      TotalIsUnion(rest, listed');
      UniqueNoRepeats(ms, listed);
      UniqueIds(ms, listed);
      NoRepeatsCard(u);
      var a := IdsOf(ms) - listed;
      var b := UnionIds(rest) - listed';
      assert UnionIds(roles) - listed == a + b;
      assert a * b == {};
      assert ([u] + Dedup(rest, listed'))[1..] == Dedup(rest, listed');
    }
  }

  /** Role i's unique members are those not held by an earlier role. */
  lemma {:induction false} DedupAtFrom(roles: seq<Entry>, listed: set<UserId>, i: nat)
    requires i < |roles|
    ensures Dedup(roles, listed)[i] == Unique(roles[i].members, listed + UnionIds(roles[..i]))
    decreases i
  {
    if i == 0 {
      assert roles[..0] == [];
      assert listed + UnionIds(roles[..0]) == listed;
    } else {
      var u := Unique(roles[0].members, listed);
      var rest := roles[1..];
      UniqueIds(roles[0].members, listed);
      DedupAtFrom(rest, listed + IdsOf(u), i - 1);
      assert rest[i - 1] == roles[i];
      assert roles[..i][1..] == rest[..i - 1];
      assert UnionIds(roles[..i]) == IdsOf(roles[0].members) + UnionIds(rest[..i - 1]);
      assert listed + IdsOf(u) + UnionIds(rest[..i - 1]) == listed + UnionIds(roles[..i]);
    }
  }

  /** Some member of role i also holds an earlier role. */
  predicate SharesWithEarlier(roles: seq<Entry>, i: nat)
    requires i < |roles|
  {
    exists k, j :: 0 <= k < |roles[i].members| && 0 <= j < i && roles[i].members[k].id in IdsOf(roles[j].members)
  }

  /** A role's unique count falls short of its member count exactly when
      some member holds an earlier role, which is when stafflist_compact
      shows both. */
  lemma CompactCountsDiffer(roles: seq<Entry>, i: nat)
    requires i < |roles|
    ensures |Dedup(roles, {})[i]| != |roles[i].members| <==> SharesWithEarlier(roles, i)
  {
    var ms := roles[i].members;
    var prefix := UnionIds(roles[..i]);
    DedupAtFrom(roles, {}, i);
    assert {} + prefix == prefix;
    UniqueAll(ms, prefix);
    if SharesWithEarlier(roles, i) {
      var k, j :| 0 <= k < |ms| && 0 <= j < i && ms[k].id in IdsOf(roles[j].members);
      assert roles[..i][j] == roles[j];
      InUnion(roles[..i], j, ms[k].id);
    }
    if |Dedup(roles, {})[i]| != |ms| {
      var k :| 0 <= k < |ms| && ms[k].id in prefix;
      var j := UnionWitness(roles[..i], ms[k].id);
      assert roles[..i][j] == roles[j];
    }
  }

  // ---------------------------------------------------------------------
  // Rendering

  /** The first limit items, then the marker when items were cut. */
  function Truncate(items: seq<string>, limit: nat, marker: string): (r: seq<string>)
    ensures |items| <= limit ==> r == items
    ensures |items| > limit ==> |r| == limit + 1 && r[..limit] == items[..limit] && r[limit] == marker
  {
    if |items| > limit then items[..limit] + [marker] else items
  }

  function StatusEmoji(s: Status): string
  {
    match s
    case Online => "\U{1F7E2}"
    case Idle => "\U{1F7E1}"
    case DoNotDisturb => "\U{1F534}"
    case _ => "\U{26AB}"
  }

  /** The detailed view: status and name of the first 10, then a count. */
  function DetailedLines(u: seq<Member>): seq<string>
  {
    Truncate(seq(|u|, i requires 0 <= i < |u| => StatusEmoji(u[i].status) + " " + u[i].displayName),
             10, "... and " + Show(|u| - 10) + " more")
  }

  /** The simple view: the first 15 names, then a count. */
  function SimpleNames(u: seq<Member>): seq<string>
  {
    Truncate(seq(|u|, i requires 0 <= i < |u| => u[i].displayName), 15, "... +" + Show(|u| - 15) + " more")
  }

  /** The cut views show each of the first members by name and count the rest. */
  lemma ViewsShowFirst(u: seq<Member>)
    ensures |DetailedLines(u)| == Min(|u|, 10) + (if |u| > 10 then 1 else 0)
    ensures forall i | 0 <= i < Min(|u|, 10) :: DetailedLines(u)[i] == StatusEmoji(u[i].status) + " " + u[i].displayName
    ensures |u| > 10 ==> DetailedLines(u)[10] == "... and " + Show(|u| - 10) + " more"
    ensures |SimpleNames(u)| == Min(|u|, 15) + (if |u| > 15 then 1 else 0)
    ensures forall i | 0 <= i < Min(|u|, 15) :: SimpleNames(u)[i] == u[i].displayName
    ensures |u| > 15 ==> SimpleNames(u)[15] == "... +" + Show(|u| - 15) + " more"
  {
  }

  function RoleField(e: Entry, u: seq<Member>, detailed: bool): Field
  {
    Field(e.name + " (" + Show(|u|) + ")",
          if detailed then Join(DetailedLines(u), "\n") else Join(SimpleNames(u), ", "))
  }

  /** The fields of staff_list: one per role with unique members. */
  function Fields(roles: seq<Entry>, uniques: seq<seq<Member>>, detailed: bool): seq<Field>
    requires |uniques| == |roles|
    decreases |roles|
  {
    if roles == [] then []
    else
      var n := |roles| - 1;
      Fields(roles[..n], uniques[..n], detailed)
        + (if uniques[n] != [] then [RoleField(roles[n], uniques[n], detailed)] else [])
  }

  /** The positions of the roles with unique members. */
  function NonEmptyAt(uniques: seq<seq<Member>>): set<nat>
  {
    set i: nat | i < |uniques| && uniques[i] != []
  }

  lemma NonEmptyAtLast(uniques: seq<seq<Member>>)
    requires uniques != []
    ensures var n := |uniques| - 1;
      NonEmptyAt(uniques) == NonEmptyAt(uniques[..n]) + (if uniques[n] != [] then {n} else {})
  {
    var n := |uniques| - 1;
    forall x: nat | x < n
      ensures uniques[..n][x] == uniques[x]
    {
    }
  }

  lemma {:induction false} FieldsCount(roles: seq<Entry>, uniques: seq<seq<Member>>, detailed: bool)
    requires |uniques| == |roles|
    ensures |Fields(roles, uniques, detailed)| == |NonEmptyAt(uniques)|
    decreases |roles|
  {
    if roles != [] {
      var n := |roles| - 1;
      FieldsCount(roles[..n], uniques[..n], detailed);
      NonEmptyAtLast(uniques);
      assert n !in NonEmptyAt(uniques[..n]);
    }
  }

  /** A line of stafflist_compact. */
  function CompactLine(e: Entry, u: seq<Member>): string
  {
    if |u| != |e.members| then
      "**" + e.name + "**: " + Show(|u|) + " unique (" + Show(|e.members|) + " total)"
    else "**" + e.name + "**: " + Show(|u|) + " members"
  }

  function CompactDescription(lines: seq<string>): string
  {
    if lines == [] then "No staff roles found." else Join(lines, "\n")
  }

  // ---------------------------------------------------------------------
  // The de-duplicating pass, as both commands run it

  /** Add the ids of u to the listed set, one member at a time. */
  method MarkListed(listed: set<UserId>, u: seq<Member>) returns (r: set<UserId>)
    ensures r == listed + IdsOf(u)
  {
    r := listed;
    var k := 0;
    assert u[..0] == [];
    while k < |u|
      invariant 0 <= k <= |u|
      invariant r == listed + IdsOf(u[..k])
    {
      assert u[..k + 1] == u[..k] + [u[k]];
      IdsOfAppend(u[..k], u[k]);
      r := r + {u[k].id};
      k := k + 1;
    }
    assert u[..|u|] == u;
  }

  lemma DedupStep(roles: seq<Entry>, i: nat, listed: set<UserId>)
    requires i < |roles|
    ensures Dedup(roles[i..], listed) ==
      [Unique(roles[i].members, listed)] + Dedup(roles[i + 1..], listed + IdsOf(Unique(roles[i].members, listed)))
  {
    assert roles[i..][1..] == roles[i + 1..];
  }

  /** Walk the roles in order, keeping the set of members already listed. */
  method DedupRoles(roles: seq<Entry>) returns (uniques: seq<seq<Member>>, total: nat)
    ensures uniques == Dedup(roles, {})
    ensures total == SumLengths(uniques)
  {
    var listed: set<UserId> := {};
    uniques := [];
    total := 0;
    var i := 0;
    while i < |roles|
      invariant 0 <= i <= |roles|
      invariant uniques + Dedup(roles[i..], listed) == Dedup(roles, {})
      invariant total == SumLengths(uniques)
    {
      var u := Unique(roles[i].members, listed);
      DedupStep(roles, i, listed);
      assert uniques + Dedup(roles[i..], listed) == (uniques + [u]) + Dedup(roles[i + 1..], listed + IdsOf(u));
      listed := MarkListed(listed, u);
      SumLengthsAppend(uniques, u);
      total := total + |u|;
      uniques := uniques + [u];
      i := i + 1;
    }
  }

  // ---------------------------------------------------------------------
  // The cog

  class StaffCog {
    const targetRoles: seq<RoleId>
    var hierarchy: map<RoleId, int>

    constructor ()
      ensures targetRoles == TargetRoles && hierarchy == DefaultHierarchy
    {
      targetRoles := TargetRoles;
      hierarchy := DefaultHierarchy;
    }

    /** The roles staff_list shows from, in the order it shows them. */
    function Ordered(guild: map<RoleId, GuildRole>, needMembers: bool): seq<Entry>
      reads this
    {
      SortByWeight(Collect(targetRoles, guild, hierarchy, needMembers))
    }

    /** staff_list: None when no target role has members; otherwise one
        field per role with unique members and the number of distinct
        staff listed. */
    method StaffListing(guild: map<RoleId, GuildRole>, detailed: bool) returns (result: Option<(seq<Field>, nat)>)
      ensures var roles := Ordered(guild, true);
        (roles == [] ==> result.None?)
        && (roles != [] ==> result == Some((Fields(roles, Dedup(roles, {}), detailed), SumLengths(Dedup(roles, {})))))
    {
      var roles := SortByWeight(Collect(targetRoles, guild, hierarchy, true));
      if roles == [] {
        return None;
      }
      var uniques, total := DedupRoles(roles);
      result := Some((Fields(roles, uniques, detailed), total));
    }

    /** stafflist_compact: one line per role the guild has, and the number of
        distinct staff. */
    method StaffListCompact(guild: map<RoleId, GuildRole>) returns (description: string, total: nat)
      ensures var roles := Ordered(guild, false);
        description == CompactDescription(seq(|roles|, i requires 0 <= i < |roles| => CompactLine(roles[i], Dedup(roles, {})[i])))
        && total == SumLengths(Dedup(roles, {}))
    {
      var roles := SortByWeight(Collect(targetRoles, guild, hierarchy, false));
      var uniques;
      uniques, total := DedupRoles(roles);
      description := CompactDescription(seq(|roles|, i requires 0 <= i < |roles| => CompactLine(roles[i], uniques[i])));
    }

    /** update_hierarchy: only a target role's weight can be set. */
    method UpdateHierarchy(r: RoleId, weight: int) returns (ok: bool)
      modifies this
      ensures ok == (r in targetRoles)
      ensures ok ==> hierarchy == old(hierarchy)[r := weight]
      ensures !ok ==> hierarchy == old(hierarchy)
    {
      ok := r in targetRoles;
      if ok {
        hierarchy := hierarchy[r := weight];
      }
    }
  }
}
