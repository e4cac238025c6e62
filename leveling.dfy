/** The XP and level engine: the level curve and its inverse, message and
    voice XP, the daily-credit and reputation cooldowns, and the admin
    grant, reset and import commands, all over the shared user ledger.
    Clock readings and random amounts are inputs. */
module Leveling {
  import opened Util
  import opened Profiles

  // ---------------------------------------------------------------------
  // The level curve

  /** The integer square root by climbing: from a root r whose square sq
      still fits in n, step up while the next square, sq + 2r + 1, fits. */
  function RootFrom(n: nat, r: nat, sq: nat): nat
    requires sq <= n
    decreases n - sq
  {
    if sq + 2 * r + 1 <= n then RootFrom(n, r + 1, sq + 2 * r + 1) else r
  }

  function ISqrt(n: nat): nat
  {
    RootFrom(n, 0, 0)
  }

  lemma NextSquare(r: int)
    ensures (r + 1) * (r + 1) == r * r + 2 * r + 1
  {
  }

  lemma {:induction false} RootFromSpec(n: nat, r: nat, sq: nat)
    requires sq == r * r && sq <= n
    ensures var q := RootFrom(n, r, sq); r <= q && q * q <= n < (q + 1) * (q + 1)
    decreases n - sq
  {
    NextSquare(r);
    if sq + 2 * r + 1 <= n {
      RootFromSpec(n, r + 1, sq + 2 * r + 1);
    }
  }

  /** ISqrt(n) is the largest r with r * r <= n. */
  lemma ISqrtSpec(n: nat)
    ensures ISqrt(n) * ISqrt(n) <= n < (ISqrt(n) + 1) * (ISqrt(n) + 1)
  {
    RootFromSpec(n, 0, 0);
  }

  lemma SquareMonotone(a: nat, b: nat)
    requires a <= b
    ensures a * a <= b * b
  {
    assert a * a <= a * b;
    assert a * b <= b * b;
  }

  /** Any k whose square fits under n is at most ISqrt(n). */
  lemma ISqrtAtLeast(n: nat, k: nat)
    requires k * k <= n
    ensures k <= ISqrt(n)
  {
    var r := ISqrt(n);
    ISqrtSpec(n);
    if k > r {
      SquareMonotone(r + 1, k);
    }
  }

  /** A root checked by hand: r is ISqrt(n) when r * r <= n < (r+1) * (r+1). */
  lemma ISqrtExact(n: nat, r: nat)
    requires r * r <= n < (r + 1) * (r + 1)
    ensures ISqrt(n) == r
  {
    var q := ISqrt(n);
    ISqrtSpec(n);
    if q < r {
      SquareMonotone(q + 1, r);
    } else if q > r {
      SquareMonotone(r + 1, q);
    }
  }

  /** The XP one level costs: int(150 * n ** 1.5), which for n >= 0 is the
      integer square root of 22500 * n^3, computed exactly. */
  function Cost(n: nat): nat
  {
    ISqrt(22500 * (n * n * n))
  }

  lemma SquareAtMostCube(n: nat)
    ensures n * n <= n * n * n
  {
    if n > 0 {
      assert (n * n) * 1 <= (n * n) * n;
    }
  }

  lemma ScaledSquare(k: int, n: int)
    ensures (k * n) * (k * n) == (k * k) * (n * n)
  {
  }

  /** Level n costs at least 150 * n, so every level from 1 on costs something. */
  lemma CostAtLeast(n: nat)
    ensures Cost(n) >= 150 * n
  {
    SquareAtMostCube(n);
    ScaledSquare(150, n);
    ISqrtAtLeast(22500 * (n * n * n), 150 * n);
  }

  lemma ISqrtOfSquare(c: nat)
    ensures ISqrt(c * c) == c
  {
    NextSquare(c);
    ISqrtExact(c * c, c);
  }

  /** On a perfect square k*k the cost is exactly 150 * k^3. */
  lemma CostOfSquare(k: nat)
    ensures Cost(k * k) == 150 * (k * k * k)
  {
    var n := k * k;
    var c := 150 * (k * k * k);
    assert c * c == 22500 * (n * n * n) by {
      ScaledSquare(150, k * k * k);
      SixthPower(k);
    }
    ISqrtOfSquare(c);
  }

  lemma SixthPower(k: int)
    ensures (k * k * k) * (k * k * k) == (k * k) * (k * k) * (k * k)
  {
  }

  /** A cost checked by hand: c is Cost(n) when c is the root of 22500 * n^3. */
  lemma CostIs(n: nat, c: nat)
    requires c * c <= 22500 * (n * n * n) < (c + 1) * (c + 1)
    ensures Cost(n) == c
  {
    ISqrtExact(22500 * (n * n * n), c);
  }

  /** The first costs: 150, 424, 779 and 1200 XP. */
  lemma CostExamples(n: nat)
    requires 1 <= n <= 4
    ensures Cost(n) == [150, 424, 779, 1200][n - 1]
  {
    if n == 1 {
      CostIs(n, 150);
    } else if n == 2 {
      CostIs(n, 424);
    } else if n == 3 {
      CostIs(n, 779);
    } else {
      CostIs(n, 1200);
    }
  }

  /** Total XP needed to reach a level: the costs of levels 1 to n. */
  function XpForLevel(n: nat): nat
  {
    if n == 0 then 0 else XpForLevel(n - 1) + Cost(n)
  }

  /** XP still needed from level to the next. */
  function XpForNextLevel(level: nat): nat
  {
    Cost(level + 1)
  }

  /** The totals strictly increase from level 0 on. */
  lemma {:induction false} XpForLevelStrict(a: nat, b: nat)
    requires a < b
    ensures XpForLevel(a) < XpForLevel(b)
    decreases b - a
  {
    CostAtLeast(b);
    if a < b - 1 {
      XpForLevelStrict(a, b - 1);
    }
  }

  /** A curve of level totals: reaching a higher level always takes more. */
  ghost predicate Increasing(total: nat -> nat)
  {
    forall m: nat, n: nat :: m < n ==> total(m) < total(n)
  }

  lemma XpForLevelIncreasing()
    ensures Increasing(XpForLevel)
  {
    forall m: nat, n: nat | m < n
      ensures XpForLevel(m) < XpForLevel(n)
    {
      XpForLevelStrict(m, n);
    }
  }

  /** The level search along a curve, from a level already reached: climb
      while the next total still fits in xp. */
  function Climb(total: nat -> nat, xp: int, level: nat): nat
    requires Increasing(total) && total(level) <= xp
    decreases xp - total(level)
  {
    if xp < total(level + 1) then level else Climb(total, xp, level + 1)
  }

  /** The climb stops at the level whose total xp has reached and whose
      next total it has not. */
  lemma {:induction false} ClimbBounds(total: nat -> nat, xp: int, level: nat)
    requires Increasing(total) && total(level) <= xp
    ensures level <= Climb(total, xp, level)
    ensures total(Climb(total, xp, level)) <= xp < total(Climb(total, xp, level) + 1)
    decreases xp - total(level)
  {
    if xp >= total(level + 1) {
      ClimbBounds(total, xp, level + 1);
    }
  }

  /** ... and that level is the only one xp lies between. */
  lemma ClimbUnique(total: nat -> nat, xp: int, n: nat)
    requires Increasing(total) && total(0) <= xp
    requires total(n) <= xp < total(n + 1)
    ensures Climb(total, xp, 0) == n
  {
    ClimbBounds(total, xp, 0);
    var r := Climb(total, xp, 0);
    assert r < n + 1 && n < r + 1;
  }

  /** Climbing with more XP never stops lower. */
  lemma ClimbMonotone(total: nat -> nat, a: int, b: int)
    requires Increasing(total) && total(0) <= a <= b
    ensures Climb(total, a, 0) <= Climb(total, b, 0)
  {
    ClimbBounds(total, a, 0);
    ClimbBounds(total, b, 0);
    assert Climb(total, a, 0) < Climb(total, b, 0) + 1;
  }

  /** The level xp is worth: 0 for negative xp. */
  function LevelOf(xp: int): nat
  {
    if xp < 0 then 0
    else
      XpForLevelIncreasing();
      Climb(XpForLevel, xp, 0)
  }

  /** The level of a non-negative xp is the level whose total it has
      reached and whose next total it has not. */
  lemma LevelOfBounds(xp: int)
    ensures xp < 0 ==> LevelOf(xp) == 0
    ensures xp >= 0 ==> XpForLevel(LevelOf(xp)) <= xp < XpForLevel(LevelOf(xp) + 1)
  {
    if xp >= 0 {
      XpForLevelIncreasing();
      ClimbBounds(XpForLevel, xp, 0);
      assert LevelOf(xp) == Climb(XpForLevel, xp, 0);
    }
  }

  /** ... and it is the only such level. */
  lemma LevelOfUnique(xp: int, n: nat)
    requires XpForLevel(n) <= xp < XpForLevel(n + 1)
    ensures LevelOf(xp) == n
  {
    XpForLevelIncreasing();
    ClimbUnique(XpForLevel, xp, n);
  }

  /** More XP never means a lower level. */
  lemma LevelOfMonotone(a: int, b: int)
    requires a <= b
    ensures LevelOf(a) <= LevelOf(b)
  {
    if a >= 0 {
      XpForLevelIncreasing();
      ClimbMonotone(XpForLevel, a, b);
    }
  }

  /** The curve and its inverse agree: exactly the total of level n is
      worth level n. */
  lemma LevelOfXpForLevel(n: nat)
    ensures LevelOf(XpForLevel(n)) == n
  {
    XpForLevelStrict(n, n + 1);
    LevelOfUnique(XpForLevel(n), n);
  }

  /** Progress towards the next level, as the rank card shows it. */
  function Progress(xp: int, level: nat): int
  {
    if level == 0 then xp else xp - XpForLevel(level)
  }

  /** At the level its xp is worth, progress never goes below 0 and stays
      under what the next level costs. */
  lemma ProgressBounds(xp: int)
    requires xp >= 0
    ensures 0 <= Progress(xp, LevelOf(xp)) < XpForNextLevel(LevelOf(xp))
  {
    var l := LevelOf(xp);
    LevelOfBounds(xp);
    assert XpForLevel(l + 1) == XpForLevel(l) + Cost(l + 1);
  }

  /** calculate_level's loop, climbing from level 0. */
  method CalculateLevel(xp: int) returns (level: nat)
    ensures level == LevelOf(xp)
  {
    if xp < 0 {
      return 0;
    }
    level := 0;
    var used := 0;
    XpForLevelIncreasing();
    while used + Cost(level + 1) <= xp
      invariant used == XpForLevel(level) && used <= xp
      invariant Increasing(XpForLevel) && Climb(XpForLevel, xp, level) == LevelOf(xp)
      decreases xp - used
    {
      CostAtLeast(level + 1);
      used := used + Cost(level + 1);
      level := level + 1;
    }
  }

  /** xp_for_level's loop over levels 1 to target. */
  method TotalXpForLevel(target: int) returns (total: nat)
    ensures total == if target <= 0 then 0 else XpForLevel(target)
  {
    total := 0;
    if target <= 0 {
      return;
    }
    var level: nat := 0;
    while level < target
      invariant level <= target
      invariant total == XpForLevel(level)
    {
      level := level + 1;
      total := total + Cost(level);
    }
  }

  // ---------------------------------------------------------------------
  // Level checks and rewards

  const TextXpMin: int := 5
  const TextXpMax: int := 15
  const VoiceXpPerMinute: int := 3
  const MessageCooldown: real := 60.0
  const DailyCooldown: real := 86400.0
  const RepCooldown: real := 86400.0
  const DailyMin: int := 50
  const DailyMax: int := 100
  const MaxDescriptionLength: int := 100

  /** The role granted on reaching each reward level. */
  const LevelRewards: map<nat, RoleId> := map[
    2 := 1295852195585069137,
    7 := 1295852430566752390,
    12 := 1295852596732493924,
    17 := 1295852714051244123,
    25 := 1295852823241687051,
    35 := 1295852968960196681,
    40 := 1295853145095667763]

  datatype LevelRange = LevelRange(low: nat, high: nat)

  /** The level range each level role stands for, as the role import reads it. */
  const ImportRanges: map<RoleId, LevelRange> := map[
    1295852195585069137 := LevelRange(0, 4),
    1295852430566752390 := LevelRange(5, 9),
    1295852596732493924 := LevelRange(10, 14),
    1295852714051244123 := LevelRange(15, 19),
    1295852823241687051 := LevelRange(20, 29),
    1295852968960196681 := LevelRange(30, 39),
    1295853145095667763 := LevelRange(40, 50)]

  /** Every reward role is a level role whose range holds its reward level,
      so importing a member who holds it never places them below it. */
  lemma RewardRolesInRange(k: nat)
    requires k in LevelRewards
    ensures LevelRewards[k] in ImportRanges
    ensures ImportRanges[LevelRewards[k]].low <= k <= ImportRanges[LevelRewards[k]].high
  {
  }

  /** A stored level no higher than what the profile's xp is worth. */
  ghost predicate Sound(p: Profile)
  {
    p.level <= LevelOf(p.xp)
  }

  ghost predicate LevelsSound(users: map<UserId, Profile>)
  {
    forall u | u in users :: Sound(users[u])
  }

  /** The ledger invariant the cog keeps: no negative balance, no level
      above what its xp is worth. */
  ghost predicate LedgerValid(users: map<UserId, Profile>)
  {
    CreditsNonNegative(users) && LevelsSound(users)
  }

  lemma LevelOfZero()
    ensures LevelOf(0) == 0
  {
    LevelOfXpForLevel(0);
  }

  /** A new profile starts sound; so does every profile a sound ledger yields. */
  lemma LookupSound(users: map<UserId, Profile>, u: UserId)
    requires LevelsSound(users)
    ensures Sound(Lookup(users, u))
  {
    LevelOfZero();
  }

  /** A profile after level_up_check: the level is raised to what the xp is
      worth, and never lowered. */
  function Raised(p: Profile): Profile
  {
    if LevelOf(p.xp) > p.level then p.(level := LevelOf(p.xp)) else p
  }

  /** The check changes only the level, leaves it at least where it was and
      at least what the xp is worth, and on a sound profile makes it exactly
      what the xp is worth. */
  lemma RaisedLevel(p: Profile)
    ensures Raised(p) == p.(level := Raised(p).level)
    ensures Raised(p).level == Max(p.level, LevelOf(p.xp))
    ensures Sound(p) ==> Raised(p).level == LevelOf(p.xp)
  {
  }

  /** The role handed out by a level check: only on a rise, and only to a
      reward level. */
  function RewardFor(oldLevel: int, newLevel: nat): (r: Option<RoleId>)
    ensures r.Some? <==> newLevel > oldLevel && newLevel in LevelRewards
    ensures r.Some? ==> r.value == LevelRewards[newLevel]
  {
    if newLevel > oldLevel && newLevel in LevelRewards then Some(LevelRewards[newLevel]) else None
  }

  /** More xp on a sound profile keeps it sound. */
  lemma GainKeepsSound(p: Profile, gain: int)
    requires Sound(p) && gain >= 0
    ensures Sound(p.(xp := p.xp + gain))
    ensures Sound(Raised(p.(xp := p.xp + gain)))
  {
    LevelOfMonotone(p.xp, p.xp + gain);
  }

  /** A valid ledger with one profile replaced by a sound one with a
      balance that is not negative stays valid. */
  lemma PutValid(users: map<UserId, Profile>, u: UserId, p: Profile)
    requires LedgerValid(users) && Sound(p) && p.credits >= 0
    ensures LedgerValid(users[u := p])
  {
  }

  // ---------------------------------------------------------------------
  // Cooldowns and grants

  /** Message XP is granted when the user has no cooldown yet or at least
      the cooldown has passed since the last grant. */
  predicate MessageAllowed(cooldowns: map<UserId, real>, u: UserId, now: real)
  {
    u !in cooldowns || now - cooldowns[u] >= MessageCooldown
  }

  /** Whole minutes in a voice session, rounded down (negative when the
      clock ran backwards). */
  function SessionMinutes(start: real, now: real): (m: int)
    ensures m as real * 60.0 <= now - start < (m + 1) as real * 60.0
  {
    ((now - start) / 60.0).Floor
  }

  /** A profile after one voice-minute tick. */
  function Ticked(p: Profile): Profile
  {
    p.(xp := p.xp + VoiceXpPerMinute, voiceTime := p.voiceTime + 1)
  }

  /** after is the ledger before once a voice tick has credited the users
      in ticked: each gains one tick (a new profile first if it had none),
      everybody else keeps their profile. */
  ghost predicate TickedFrom(before: map<UserId, Profile>, ticked: set<UserId>, after: map<UserId, Profile>)
  {
    after.Keys == before.Keys + ticked
    && forall u | u in after :: after[u] == if u in ticked then Ticked(Lookup(before, u)) else before[u]
  }

  /** A voice tick changes xp and voice time only, by three xp and one
      minute per ticked user, and keeps a sound ledger sound. */
  lemma TickedValid(before: map<UserId, Profile>, ticked: set<UserId>, after: map<UserId, Profile>)
    requires TickedFrom(before, ticked, after)
    requires LedgerValid(before)
    ensures LedgerValid(after)
  {
    forall u | u in after
      ensures Sound(after[u]) && after[u].credits >= 0
    {
      if u in ticked {
        LookupSound(before, u);
        GainKeepsSound(Lookup(before, u), VoiceXpPerMinute);
      }
    }
  }

  /** Crediting one more user is one more update of the ledger. */
  lemma TickedStep(before: map<UserId, Profile>, ticked: set<UserId>, after: map<UserId, Profile>, v: UserId)
    requires TickedFrom(before, ticked, after) && v !in ticked
    ensures Lookup(after, v) == Lookup(before, v)
    ensures TickedFrom(before, ticked + {v}, after[v := Ticked(Lookup(before, v))])
  {
  }

  /** The ledger after a guild reset: the listed users who have a profile
      get xp and level 0; nobody else changes and nobody is added. */
  function ResetAll(users: map<UserId, Profile>, members: seq<UserId>): (r: map<UserId, Profile>)
    ensures r.Keys == users.Keys
    ensures forall u | u in r :: r[u] == if u in members then users[u].(xp := 0, level := 0) else users[u]
  {
    map u | u in users :: if u in members then users[u].(xp := 0, level := 0) else users[u]
  }

  lemma ResetAllValid(users: map<UserId, Profile>, members: seq<UserId>)
    requires LedgerValid(users)
    ensures LedgerValid(ResetAll(users, members))
  {
    LevelOfZero();
  }

  // ---------------------------------------------------------------------
  // What each handler does to the ledger

  /** u's profile after a message grant and the level check. */
  function MessageGrant(users: map<UserId, Profile>, u: UserId, gain: int): map<UserId, Profile>
  {
    var p := Lookup(users, u);
    users[u := Raised(p.(xp := p.xp + gain, messagesSent := p.messagesSent + 1))]
  }

  /** A grant touches u alone: one more message, gain more xp, a level that
      does not drop and, on a sound profile, is exactly what the new xp is
      worth; the ledger stays valid. */
  lemma MessageGrantEffect(users: map<UserId, Profile>, u: UserId, gain: int)
    requires TextXpMin <= gain <= TextXpMax
    ensures var r := MessageGrant(users, u, gain);
      var p := Lookup(users, u);
      r.Keys == users.Keys + {u}
      && (forall v | v in users && v != u :: r[v] == users[v])
      && r[u].messagesSent == p.messagesSent + 1 && r[u].xp == p.xp + gain
      && r[u].credits == p.credits && p.level <= r[u].level
      && (Sound(p) ==> r[u].level == LevelOf(p.xp + gain))
      && (LedgerValid(users) ==> LedgerValid(r))
  {
    var p := Lookup(users, u);
    var q := p.(xp := p.xp + gain, messagesSent := p.messagesSent + 1);
    RaisedLevel(q);
    if Sound(p) {
      GainKeepsSound(p, gain);
    }
    if LedgerValid(users) {
      LookupSound(users, u);
      GainKeepsSound(p, gain);
      PutValid(users, u, Raised(q));
    }
  }

  /** u's profile after a voice session of minutes whole minutes. */
  function VoiceCredit(users: map<UserId, Profile>, u: UserId, minutes: int): map<UserId, Profile>
  {
    var p := Lookup(users, u);
    users[u := Raised(p.(voiceTime := p.voiceTime + minutes, xp := p.xp + minutes * VoiceXpPerMinute))]
  }

  /** A session credit touches u alone: the minutes go to the voice time,
      three xp per minute, the level does not drop; the ledger stays valid. */
  lemma VoiceCreditEffect(users: map<UserId, Profile>, u: UserId, minutes: int)
    requires minutes > 0
    ensures var r := VoiceCredit(users, u, minutes);
      var p := Lookup(users, u);
      r.Keys == users.Keys + {u}
      && (forall v | v in users && v != u :: r[v] == users[v])
      && r[u].voiceTime == p.voiceTime + minutes && r[u].xp == p.xp + 3 * minutes
      && r[u].credits == p.credits && p.level <= r[u].level
      && (LedgerValid(users) ==> LedgerValid(r))
  {
    var p := Lookup(users, u);
    var q := p.(voiceTime := p.voiceTime + minutes, xp := p.xp + minutes * VoiceXpPerMinute);
    RaisedLevel(q);
    if LedgerValid(users) {
      LookupSound(users, u);
      GainKeepsSound(p, minutes * VoiceXpPerMinute);
      PutValid(users, u, Raised(q));
    }
  }

  /** As voice_xp_task stands, the minute tick never moves a session's start,
      so a session of two whole minutes that two ticks already credited is
      credited its two minutes again on leaving: four minutes and 12 xp in
      all. */
  lemma VoiceMinutesCountedTwice(users: map<UserId, Profile>, u: UserId, start: real)
    ensures var p := Lookup(users, u);
      var t1 := users[u := Ticked(p)];
      var t2 := t1[u := Ticked(Lookup(t1, u))];
      var r := VoiceCredit(t2, u, SessionMinutes(start, start + 120.0));
      SessionMinutes(start, start + 120.0) == 2
      && r[u].voiceTime == p.voiceTime + 4 && r[u].xp == p.xp + 12
  {
    var m := SessionMinutes(start, start + 120.0);
    assert m == 2 by {
      assert m as real * 60.0 <= 120.0 < (m + 1) as real * 60.0;
    }
  }

  predicate DailyReady(p: Profile, now: real)
  {
    now - p.lastDaily >= DailyCooldown
  }

  /** The ledger after a daily claim: u's profile exists, and when a day has
      passed since the last claim it gains amount credits and the new claim
      time. */
  function DailyClaim(users: map<UserId, Profile>, u: UserId, now: real, amount: int): map<UserId, Profile>
  {
    var p := Lookup(users, u);
    users[u := if DailyReady(p, now) then p.(credits := p.credits + amount, lastDaily := now) else p]
  }

  /** A claim pays between 50 and 100 credits or nothing, keeps the ledger
      valid, and a second claim less than a day later pays nothing. */
  lemma DailyClaimEffect(users: map<UserId, Profile>, u: UserId, now: real, amount: int, later: real, again: int)
    requires DailyMin <= amount <= DailyMax
    ensures var r := DailyClaim(users, u, now, amount);
      var p := Lookup(users, u);
      r.Keys == users.Keys + {u}
      && (forall v | v in users && v != u :: r[v] == users[v])
      && r[u].credits == p.credits + (if DailyReady(p, now) then amount else 0)
      && (LedgerValid(users) ==> LedgerValid(r))
      && (DailyReady(p, now) && later - now < DailyCooldown ==> DailyClaim(r, u, later, again) == r)
  {
    var p := Lookup(users, u);
    if LedgerValid(users) {
      LookupSound(users, u);
      PutValid(users, u, DailyClaim(users, u, now, amount)[u]);
    }
  }

  /** Reputation from giver is refused while a day has not passed since the
      giver's last one. */
  predicate RepCooling(g: Profile, now: real)
  {
    g.lastRep.Some? && now - g.lastRep.value < RepCooldown
  }

  /** The ledger after giver gives receiver a point. */
  function GiveRep(users: map<UserId, Profile>, giver: UserId, receiver: UserId, now: real): map<UserId, Profile>
  {
    var g := Lookup(users, giver);
    var rc := Lookup(users, receiver);
    users[receiver := rc.(reputation := rc.reputation + 1)][giver := g.(lastRep := Some(now))]
  }

  /** A point moves the receiver's reputation up by exactly one and nobody
      else's, starts the giver's cooldown, and keeps the ledger valid. */
  lemma GiveRepEffect(users: map<UserId, Profile>, giver: UserId, receiver: UserId, now: real, later: real)
    requires giver != receiver
    ensures var r := GiveRep(users, giver, receiver, now);
      r.Keys == users.Keys + {giver, receiver}
      && r[receiver].reputation == Lookup(users, receiver).reputation + 1
      && (forall v | v in r && v != receiver :: r[v].reputation == Lookup(users, v).reputation)
      && (forall v | v in users && v != giver && v != receiver :: r[v] == users[v])
      && (now <= later < now + RepCooldown ==> RepCooling(r[giver], later))
      && (LedgerValid(users) ==> LedgerValid(r))
  {
    var g := Lookup(users, giver);
    var rc := Lookup(users, receiver);
    if LedgerValid(users) {
      LookupSound(users, giver);
      LookupSound(users, receiver);
      PutValid(users, receiver, rc.(reputation := rc.reputation + 1));
      PutValid(users[receiver := rc.(reputation := rc.reputation + 1)], giver, g.(lastRep := Some(now)));
    }
  }

  /** The ledger after an admin grant of amount xp to u. */
  function GiveXpTo(users: map<UserId, Profile>, u: UserId, amount: int): map<UserId, Profile>
  {
    var p := Lookup(users, u);
    users[u := p.(xp := p.xp + amount, level := LevelOf(p.xp + amount))]
  }

  /** A grant leaves u at exactly the level its new xp is worth, sound
      whatever the level was before, and the ledger valid. */
  lemma GiveXpEffect(users: map<UserId, Profile>, u: UserId, amount: int)
    ensures var r := GiveXpTo(users, u, amount);
      r.Keys == users.Keys + {u}
      && r[u].xp == Lookup(users, u).xp + amount && Sound(r[u])
      && (forall v | v in users && v != u :: r[v] == users[v])
      && (LedgerValid(users) ==> LedgerValid(r))
  {
    if LedgerValid(users) {
      LookupSound(users, u);
      PutValid(users, u, GiveXpTo(users, u, amount)[u]);
    }
  }

  /** A negative grant can lower a level: 200 xp is level 1, 100 is level 0. */
  lemma GiveXpCanLower()
    ensures var users := map[1 := DefaultProfile().(xp := 200, level := 1)];
      GiveXpTo(users, 1, -100)[1].level == 0 && Sound(users[1])
  {
    CostExamples(1);
    CostExamples(2);
    LevelOfUnique(100, 0);
    LevelOfUnique(200, 1);
  }

  /** The ledger after the rank command's level refresh of u. */
  function Refreshed(users: map<UserId, Profile>, u: UserId): map<UserId, Profile>
  {
    var p := Lookup(users, u);
    users[u := p.(level := LevelOf(p.xp))]
  }

  lemma RefreshedValid(users: map<UserId, Profile>, u: UserId)
    requires LedgerValid(users)
    ensures LedgerValid(Refreshed(users, u))
  {
    LookupSound(users, u);
    PutValid(users, u, Refreshed(users, u)[u]);
  }

  /** The ledger after a reset of u. */
  function ResetOne(users: map<UserId, Profile>, u: UserId): map<UserId, Profile>
  {
    users[u := Lookup(users, u).(xp := 0, level := 0)]
  }

  lemma ResetOneValid(users: map<UserId, Profile>, u: UserId)
    requires LedgerValid(users)
    ensures LedgerValid(ResetOne(users, u)) && LevelOf(ResetOne(users, u)[u].xp) == 0
  {
    LevelOfZero();
    LookupSound(users, u);
    PutValid(users, u, ResetOne(users, u)[u]);
  }

  // ---------------------------------------------------------------------
  // Role import

  datatype Member = Member(id: UserId, isBot: bool, roles: seq<RoleId>)

  /** The highest level a member's level roles stand for: the top of the
      highest range among their roles, 0 when they hold none. */
  function HighestOf(roles: seq<RoleId>): (h: nat)
    ensures forall i | 0 <= i < |roles| && roles[i] in ImportRanges :: ImportRanges[roles[i]].high <= h
    ensures h == 0 || exists i | 0 <= i < |roles| :: roles[i] in ImportRanges && ImportRanges[roles[i]].high == h
  {
    if roles == [] then 0
    else
      var h := HighestOf(roles[..|roles| - 1]);
      var r := roles[|roles| - 1];
      if r in ImportRanges && ImportRanges[r].high > h then ImportRanges[r].high else h
  }

  datatype ImportState = ImportState(users: map<UserId, Profile>, imported: nat, skipped: nat)

  /** One member of the import: non-bots holding a level role get a profile;
      a stored level below the role's level is replaced by it, with exactly
      the xp that level takes, and counts as imported; otherwise skipped. */
  function ImportOne(st: ImportState, m: Member): ImportState
  {
    var h := HighestOf(m.roles);
    if m.isBot || h == 0 then st
    else
      var p := Lookup(st.users, m.id);
      if p.level < h then
        ImportState(st.users[m.id := p.(xp := XpForLevel(h), level := h)], st.imported + 1, st.skipped)
      else
        ImportState(st.users[m.id := p], st.imported, st.skipped + 1)
  }

  /** The import over the guild's members, in order. */
  function ImportAll(st: ImportState, ms: seq<Member>): ImportState
  {
    if ms == [] then st else ImportOne(ImportAll(st, ms[..|ms| - 1]), ms[|ms| - 1])
  }

  /** The members the import looks at: non-bots with a level role. */
  function Eligible(ms: seq<Member>): nat
  {
    if ms == [] then 0
    else Eligible(ms[..|ms| - 1]) + if !ms[|ms| - 1].isBot && HighestOf(ms[|ms| - 1].roles) > 0 then 1 else 0
  }

  /** Importing one member never lowers its level, lands an imported member
      exactly on the role's level, and keeps the ledger sound and its
      balances untouched. */
  lemma ImportOneEffect(st: ImportState, m: Member)
    requires LedgerValid(st.users)
    ensures var r := ImportOne(st, m);
      var h := HighestOf(m.roles);
      LedgerValid(r.users)
      && (!m.isBot && h > 0 ==>
            r.users[m.id].level == Max(Lookup(st.users, m.id).level, h)
            && r.users[m.id].credits == Lookup(st.users, m.id).credits
            && (r.imported == st.imported + 1 <==> Lookup(st.users, m.id).level < h))
      && forall v | v in st.users && v != m.id :: r.users[v] == st.users[v]
  {
    var h := HighestOf(m.roles);
    if !m.isBot && h > 0 {
      var p := Lookup(st.users, m.id);
      LookupSound(st.users, m.id);
      if p.level < h {
        var q := p.(xp := XpForLevel(h), level := h);
        LevelOfXpForLevel(h);
        assert Sound(q);
        PutValid(st.users, m.id, q);
      } else {
        PutValid(st.users, m.id, p);
      }
    }
  }

  /** Over a whole import, every member looked at is counted exactly once,
      as imported or as skipped. */
  lemma {:induction false} ImportAllCounts(st: ImportState, ms: seq<Member>)
    ensures var r := ImportAll(st, ms);
      r.imported + r.skipped == st.imported + st.skipped + Eligible(ms)
  {
    if ms != [] {
      ImportAllCounts(st, ms[..|ms| - 1]);
    }
  }

  /** ... and the import keeps a sound ledger sound. */
  lemma {:induction false} ImportAllValid(st: ImportState, ms: seq<Member>)
    requires LedgerValid(st.users)
    ensures LedgerValid(ImportAll(st, ms).users)
  {
    if ms != [] {
      var ms' := ms[..|ms| - 1];
      ImportAllValid(st, ms');
      ImportOneEffect(ImportAll(st, ms'), ms[|ms| - 1]);
    }
  }

  /** The figures the rank card shows for xp: the level it is worth, the
      progress into that level and the cost of the next one. */
  method RankFigures(xp: int) returns (level: nat, progress: int, next: nat)
    ensures level == LevelOf(xp) && progress == Progress(xp, level) && next == XpForNextLevel(level)
    ensures xp >= 0 ==> 0 <= progress < next
  {
    level := CalculateLevel(xp);
    if level == 0 {
      progress := xp;
    } else {
      var reached := TotalXpForLevel(level);
      progress := xp - reached;
    }
    next := Cost(level + 1);
    if xp >= 0 {
      ProgressBounds(xp);
    }
  }

  // ---------------------------------------------------------------------
  // Leaderboard paging

  const PerPage: nat := 10

  /** ceil(n / 10) pages for n users. */
  function TotalPages(n: nat): (t: nat)
    ensures n == 0 <==> t == 0
    ensures n > 0 ==> PerPage * (t - 1) < n <= PerPage * t
  {
    (n + PerPage - 1) / PerPage
  }

  /** The page asked for, clamped to 1 .. total (page 1 when there are none). */
  function ClampPage(page: int, total: nat): (p: int)
    ensures 1 <= p
    ensures total > 0 ==> p <= total
    ensures 1 <= page && page <= total ==> p == page
  {
    Max(1, Min(page, total))
  }

  /** The index of the first user on a page. */
  function PageStart(page: int): int
  {
    (page - 1) * PerPage
  }

  /** On a clamped page of a non-empty board the window starts at a user
      that exists and holds at most ten of them; the pages tile the board. */
  lemma PageWindow(n: nat, page: int)
    requires n > 0
    ensures var p := ClampPage(page, TotalPages(n));
      0 <= PageStart(p) < n && PageStart(p) + PerPage == p * PerPage
  {
  }

  /** The loop of the minute tick, over the tracked users in any order:
      credit those still connected, drop the sessions of the others. */
  method TickSessions(users0: map<UserId, Profile>, sessions0: map<UserId, real>, connected: set<UserId>)
    returns (users: map<UserId, Profile>, sessions: map<UserId, real>)
    ensures TickedFrom(users0, sessions0.Keys * connected, users)
    ensures sessions == map u | u in sessions0 && u in connected :: sessions0[u]
  {
    users, sessions := users0, sessions0;
    ghost var done: set<UserId> := {};
    ghost var ticked: set<UserId> := {};
    var todo := sessions0.Keys;
    while todo != {}
      invariant todo + done == sessions0.Keys && todo !! done
      invariant forall v :: v in sessions <==> v in sessions0 && (v in todo || v in connected)
      invariant forall v | v in sessions :: sessions[v] == sessions0[v]
      invariant forall v :: v in ticked <==> v in done && v in connected
      invariant TickedFrom(users0, ticked, users)
      decreases todo
    {
      var u :| u in todo;
      if u in connected {
        TickedStep(users0, ticked, users, u);
        users := users[u := Ticked(Lookup(users, u))];
        ticked := ticked + {u};
      } else {
        sessions := sessions - {u};
      }
      todo := todo - {u};
      done := done + {u};
    }
    assert ticked == sessions0.Keys * connected;
  }

  /** The reset loop over the guild's members. */
  method ResetMembers(users0: map<UserId, Profile>, members: seq<UserId>) returns (users: map<UserId, Profile>)
    ensures users == ResetAll(users0, members)
  {
    users := users0;
    var i := 0;
    while i < |members|
      invariant i <= |members|
      invariant users == ResetAll(users0, members[..i])
    {
      var u := members[i];
      if u in users {
        users := users[u := users[u].(xp := 0, level := 0)];
      }
      assert forall v :: v in members[..i + 1] <==> v in members[..i] || v == u;
      i := i + 1;
    }
    assert members[..i] == members;
  }

  /** The role loop of the import: the highest level among a member's
      level roles. */
  method HighestImportLevel(roles: seq<RoleId>) returns (h: nat)
    ensures h == HighestOf(roles)
  {
    h := 0;
    var i := 0;
    while i < |roles|
      invariant i <= |roles|
      invariant h == HighestOf(roles[..i])
    {
      var r := roles[i];
      if r in ImportRanges && ImportRanges[r].high > h {
        h := ImportRanges[r].high;
      }
      assert roles[..i + 1][..i] == roles[..i];
      i := i + 1;
    }
    assert roles[..i] == roles;
  }

  /** One member of the import, computing the target xp as import_roles does. */
  method ImportMember(st0: ImportState, m: Member) returns (st: ImportState)
    ensures st == ImportOne(st0, m)
  {
    st := st0;
    if !m.isBot {
      var h := HighestImportLevel(m.roles);
      if h > 0 {
        var p := Lookup(st0.users, m.id);
        if p.level < h {
          var xp := TotalXpForLevel(h);
          st := ImportState(st0.users[m.id := p.(xp := xp, level := h)], st0.imported + 1, st0.skipped);
        } else {
          st := ImportState(st0.users[m.id := p], st0.imported, st0.skipped + 1);
        }
      }
    }
  }

  /** The member loop of the import, counting imported and skipped members. */
  method ImportMembers(st0: ImportState, members: seq<Member>) returns (st: ImportState)
    ensures st == ImportAll(st0, members)
  {
    st := st0;
    var i := 0;
    while i < |members|
      invariant i <= |members|
      invariant st == ImportAll(st0, members[..i])
    {
      assert members[..i + 1][..i] == members[..i];
      st := ImportMember(st, members[i]);
      i := i + 1;
    }
    assert members[..i] == members;
  }


  // ---------------------------------------------------------------------
  // The cog

  datatype RepResult = RepGiven | RepToBot | RepToSelf | RepOnCooldown

  datatype ImportCounts = ImportCounts(imported: nat, skipped: nat)

  /** The leveling cog: the shared ledger, the open voice sessions (start
      time per user) and the last message grant per user. */
  class Levels {
    const store: UserStore
    var voiceSessions: map<UserId, real>
    var messageCooldowns: map<UserId, real>

    constructor (ledger: UserStore)
      ensures store == ledger && voiceSessions == map[] && messageCooldowns == map[]
    {
      store := ledger;
      voiceSessions := map[];
      messageCooldowns := map[];
    }

    /** level_up_check: raise the stored level to what the xp is worth and
        return the reward role to hand out, if the new level has one. */
    method LevelUpCheck(u: UserId) returns (reward: Option<RoleId>)
      modifies store
      ensures var p := Lookup(old(store.users), u);
        store.users == old(store.users)[u := Raised(p)]
        && reward == RewardFor(p.level, LevelOf(p.xp))
    {
      var p := store.GetUserData(u);
      var newLevel := CalculateLevel(p.xp);
      reward := None;
      if newLevel > p.level {
        store.Put(u, p.(level := newLevel));
        if newLevel in LevelRewards {
          reward := Some(LevelRewards[newLevel]);
        }
      }
    }

    /** on_message: outside a cooldown, a user's guild message earns gain
        xp and one message, then the level check. */
    method OnMessage(u: UserId, isBot: bool, inGuild: bool, now: real, gain: int)
      returns (granted: bool, reward: Option<RoleId>)
      requires TextXpMin <= gain <= TextXpMax
      modifies this, store
      ensures granted <==> !isBot && inGuild && MessageAllowed(old(messageCooldowns), u, now)
      ensures voiceSessions == old(voiceSessions)
      ensures !granted ==> messageCooldowns == old(messageCooldowns) && store.users == old(store.users) && reward == None
      ensures granted ==>
        var p := Lookup(old(store.users), u);
        messageCooldowns == old(messageCooldowns)[u := now]
        && store.users == MessageGrant(old(store.users), u, gain)
        && reward == RewardFor(p.level, LevelOf(p.xp + gain))
    {
      granted := false;
      reward := None;
      if isBot || !inGuild {
        return;
      }
      if u in messageCooldowns && now - messageCooldowns[u] < MessageCooldown {
        return;
      }
      granted := true;
      messageCooldowns := messageCooldowns[u := now];
      var p := store.GetUserData(u);
      store.Put(u, p.(xp := p.xp + gain, messagesSent := p.messagesSent + 1));
      reward := LevelUpCheck(u);
    }

    /** on_voice_state_update: joining opens a session; leaving closes it and
        credits its whole minutes (three xp each), with a level check. */
    method OnVoiceStateUpdate(u: UserId, wasConnected: bool, isConnected: bool, now: real)
      returns (minutes: int, reward: Option<RoleId>)
      modifies this, store
      ensures messageCooldowns == old(messageCooldowns)
      ensures !wasConnected && isConnected ==>
        voiceSessions == old(voiceSessions)[u := now] && store.users == old(store.users)
      ensures (wasConnected == isConnected || (wasConnected && u !in old(voiceSessions))) ==>
        voiceSessions == old(voiceSessions) && store.users == old(store.users)
      ensures wasConnected && !isConnected && u in old(voiceSessions) ==>
        minutes == SessionMinutes(old(voiceSessions)[u], now)
        && voiceSessions == old(voiceSessions) - {u}
        && store.users == (if minutes > 0 then VoiceCredit(old(store.users), u, minutes) else old(store.users))
    {
      minutes := 0;
      reward := None;
      if !wasConnected && isConnected {
        voiceSessions := voiceSessions[u := now];
      } else if wasConnected && !isConnected && u in voiceSessions {
        minutes := SessionMinutes(voiceSessions[u], now);
        if minutes > 0 {
          var p := store.GetUserData(u);
          store.Put(u, p.(voiceTime := p.voiceTime + minutes, xp := p.xp + minutes * VoiceXpPerMinute));
          reward := LevelUpCheck(u);
        }
        voiceSessions := voiceSessions - {u};
      }
    }

    /** The minute tick: every tracked user still connected somewhere gains
        three xp and a minute (no level check); the others lose their session. */
    method VoiceXpTick(connected: set<UserId>)
      modifies this, store
      ensures voiceSessions == map u | u in old(voiceSessions) && u in connected :: old(voiceSessions)[u]
      ensures TickedFrom(old(store.users), old(voiceSessions).Keys * connected, store.users)
      ensures messageCooldowns == old(messageCooldowns)
    {
      var users, sessions := TickSessions(store.users, voiceSessions, connected);
      store.users := users;
      voiceSessions := sessions;
    }

    /** daily: claim 50 to 100 credits once per 24 hours. */
    method Daily(u: UserId, now: real, amount: int) returns (claimed: bool)
      requires DailyMin <= amount <= DailyMax
      modifies store
      ensures claimed == DailyReady(Lookup(old(store.users), u), now)
      ensures store.users == DailyClaim(old(store.users), u, now, amount)
    {
      var p := store.GetUserData(u);
      claimed := now - p.lastDaily >= DailyCooldown;
      if claimed {
        store.Put(u, p.(credits := p.credits + amount, lastDaily := now));
      }
    }

    /** reputation: one point from giver to receiver, at most once per 24 hours
        per giver, never to a bot or to oneself. */
    method Reputation(giver: UserId, receiver: UserId, receiverIsBot: bool, now: real) returns (r: RepResult)
      modifies store
      ensures receiverIsBot ==> r == RepToBot && store.users == old(store.users)
      ensures !receiverIsBot && giver == receiver ==> r == RepToSelf && store.users == old(store.users)
      ensures !receiverIsBot && giver != receiver && RepCooling(Lookup(old(store.users), giver), now) ==>
        r == RepOnCooldown && store.users == old(store.users)[giver := Lookup(old(store.users), giver)]
      ensures !receiverIsBot && giver != receiver && !RepCooling(Lookup(old(store.users), giver), now) ==>
        r == RepGiven && store.users == GiveRep(old(store.users), giver, receiver, now)
    {
      if receiverIsBot {
        return RepToBot;
      }
      if giver == receiver {
        return RepToSelf;
      }
      var g := store.GetUserData(giver);
      if g.lastRep.Some? && now - g.lastRep.value < RepCooldown {
        return RepOnCooldown;
      }
      var rc := store.GetUserData(receiver);
      store.Put(receiver, rc.(reputation := rc.reputation + 1));
      store.Put(giver, g.(lastRep := Some(now)));
      r := RepGiven;
    }

    /** set_description: at most 100 characters, else rejected before the
        profile is touched. */
    method SetDescription(u: UserId, description: string) returns (ok: bool)
      modifies store
      ensures ok == (|description| <= MaxDescriptionLength)
      ensures !ok ==> store.users == old(store.users)
      ensures ok ==> store.users == old(store.users)[u := Lookup(old(store.users), u).(description := description)]
    {
      ok := |description| <= MaxDescriptionLength;
      if ok {
        var p := store.GetUserData(u);
        store.Put(u, p.(description := description));
      }
    }

    /** givexp: add amount (of either sign) and set the level to what the new
        xp is worth, which may lower it. */
    method GiveXp(u: UserId, amount: int) returns (oldLevel: int, newLevel: nat)
      modifies store
      ensures oldLevel == Lookup(old(store.users), u).level
      ensures newLevel == LevelOf(Lookup(old(store.users), u).xp + amount)
      ensures store.users == GiveXpTo(old(store.users), u, amount)
    {
      var p := store.GetUserData(u);
      oldLevel := p.level;
      newLevel := CalculateLevel(p.xp + amount);
      store.Put(u, p.(xp := p.xp + amount, level := newLevel));
    }

    /** The rank command's level refresh: the stored level becomes what the
        xp is worth; the card shows that level, the progress into it and
        the cost of the next one. */
    method Rank(u: UserId) returns (level: nat, progress: int, next: nat)
      modifies store
      ensures var p := Lookup(old(store.users), u);
        level == LevelOf(p.xp) && progress == Progress(p.xp, level) && next == XpForNextLevel(level)
        && (p.xp >= 0 ==> 0 <= progress < next)
      ensures store.users == Refreshed(old(store.users), u)
    {
      var p := store.GetUserData(u);
      level, progress, next := RankFigures(p.xp);
      if level != p.level {
        store.Put(u, p.(level := level));
      }
    }

    /** resetlevels for one user: xp and level back to 0. */
    method ResetUser(u: UserId)
      modifies store
      ensures store.users == ResetOne(old(store.users), u)
    {
      var p := store.GetUserData(u);
      store.Put(u, p.(xp := 0, level := 0));
    }

    /** resetlevels for the guild: the members who have a profile. */
    method ResetGuild(members: seq<UserId>)
      modifies store
      ensures store.users == ResetAll(old(store.users), members)
    {
      store.users := ResetMembers(store.users, members);
    }

    /** import_roles after the confirmation: place each member at the top of
        their highest level role unless already at or above it. */
    method ImportRoles(members: seq<Member>) returns (counts: ImportCounts)
      modifies store
      ensures var r := ImportAll(ImportState(old(store.users), 0, 0), members);
        store.users == r.users && counts == ImportCounts(r.imported, r.skipped)
      ensures counts.imported + counts.skipped == Eligible(members)
    {
      var st0 := ImportState(store.users, 0, 0);
      var r := ImportMembers(st0, members);
      ImportAllCounts(st0, members);
      store.users := r.users;
      counts := ImportCounts(r.imported, r.skipped);
    }
  }
}
