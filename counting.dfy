/** The counting game: in one channel per guild, members post the numbers
    1, 2, 3, ... in turn. A wrong number resets the count, and every rule
    broken is a violation that counts against the member who broke it. */
module Counting {
  import opened Util
  import opened Decimal

  // ---------------------------------------------------------------------
  // Stored records and their migration

  /** A value as the JSON store holds it. */
  datatype Value = Null | Int(i: int) | Bool(b: bool) | Text(s: string) | Ints(xs: seq<int>) | Dict(entries: map<string, Value>)

  /** One guild's stored record, key by key. */
  type Record = map<string, Value>

  /** The record a guild starts with. */
  const DefaultSettings: Record := map[
    "channel_id" := Null,
    "current_number" := Int(0),
    "last_user" := Null,
    "highest_count" := Int(0),
    "total_counts" := Int(0),
    "enabled" := Bool(false),
    "allow_same_user" := Bool(false),
    "reset_on_mistake" := Bool(true),
    "counting_role" := Null,
    "save_progress" := Bool(true),
    "milestones" := Ints([100, 500, 1000, 2500, 5000, 10000]),
    "leaderboard" := Dict(map[]),
    "mistakes" := Int(0),
    "resets" := Int(0),
    "last_reset" := Null,
    "streak_record" := Int(0),
    "fun_mode" := Bool(false),
    "auto_react" := Bool(true),
    "delete_wrong_messages" := Bool(true),
    "strict_mode" := Bool(true),
    "only_numbers" := Bool(true),
    "kick_on_spam" := Bool(false),
    "spam_threshold" := Int(3),
    "user_violations" := Dict(map[]),
    "mute_violators" := Bool(true),
    "violation_timeout" := Int(60)]

  /** stored with every key of defaults it lacks added. */
  function Merge(stored: Record, defaults: Record): Record
  {
    defaults + stored
  }

  /** Back-filling adds exactly the missing keys, never changes a stored
      value, does nothing the second time, and turns an empty record into
      the defaults. */
  lemma MergeEffect(stored: Record, defaults: Record)
    ensures var r := Merge(stored, defaults);
      r.Keys == stored.Keys + defaults.Keys
      && (forall k | k in stored :: r[k] == stored[k])
      && (forall k | k in defaults && k !in stored :: r[k] == defaults[k])
      && Merge(r, defaults) == r
    ensures Merge(map[], defaults) == defaults
  {
    var r := Merge(stored, defaults);
    assert Merge(r, defaults) == r;
    assert Merge(map[], defaults) == defaults;
  }

  /** A guild's stored record after get_guild_data's migration. */
  function Migrated(stored: Record): Record
  {
    Merge(stored, DefaultSettings)
  }

  /** One key of the back-fill loop: a missing key takes its default, a
      present one stays. */
  lemma BackfillStep(stored: Record, defaults: Record, todo: set<string>, k: string)
    requires k in todo && todo <= defaults.Keys
    ensures var r := (defaults - todo) + stored;
      (k in r <==> k in stored)
      && (k !in stored ==> r[k := defaults[k]] == (defaults - (todo - {k})) + stored)
      && (k in stored ==> r == (defaults - (todo - {k})) + stored)
  {
    var r := (defaults - todo) + stored;
    if k !in stored {
      assert r[k := defaults[k]] == (defaults - (todo - {k})) + stored;
    } else {
      assert r == (defaults - (todo - {k})) + stored;
    }
  }

  /** get_guild_data's back-fill loop over the default keys; updated says
      whether any key was added (and so whether the store is saved). */
  method Backfill(stored: Record, defaults: Record) returns (r: Record, updated: bool)
    ensures r == Merge(stored, defaults)
    ensures updated <==> exists k :: k in defaults && k !in stored
  {
    r := stored;
    updated := false;
    var todo := defaults.Keys;
    while todo != {}
      invariant todo <= defaults.Keys
      invariant r == (defaults - todo) + stored
      invariant updated ==> exists k :: k in defaults && k !in stored
      invariant !updated ==> forall k | k in defaults && k !in todo :: k in stored
      decreases |todo|
    {
      var k :| k in todo;
      BackfillStep(stored, defaults, todo, k);
      if k !in r {
        r := r[k := defaults[k]];
        updated := true;
      }
      todo := todo - {k};
    }
    assert defaults - {} == defaults;
  }

  // ---------------------------------------------------------------------
  // A guild's game, after migration

  /** The settings the game logic reads. */
  datatype Settings = Settings(
    channelId: Option<ChannelId>,
    enabled: bool,
    saveProgress: bool,
    autoReact: bool,
    deleteWrong: bool,
    onlyNumbers: bool,
    muteViolators: bool,
    spamThreshold: int,
    violationTimeout: int,
    milestones: seq<int>)

  /** The count and its statistics; leaderboard holds each member's
      accepted numbers. */
  datatype Game = Game(
    current: int,
    lastUser: Option<UserId>,
    highest: int,
    total: int,
    leaderboard: map<UserId, nat>,
    mistakes: int,
    resets: int,
    lastReset: Option<real>,
    streakRecord: int)

  datatype Violation = Violation(count: nat, last: Option<real>)

  datatype GuildData = GuildData(settings: Settings, game: Game, violations: map<UserId, Violation>)

  /** The typed view of DefaultSettings. */
  function DefaultGuild(): GuildData
  {
    GuildData(
      Settings(None, false, true, true, true, true, true, 3, 60, [100, 500, 1000, 2500, 5000, 10000]),
      Game(0, None, 0, 0, map[], 0, 0, None, 0),
      map[])
  }

  function GuildOf(guilds: map<GuildId, GuildData>, g: GuildId): (d: GuildData)
    ensures g !in guilds ==> d == DefaultGuild()
    ensures g in guilds ==> d == guilds[g]
  {
    if g in guilds then guilds[g] else DefaultGuild()
  }

  /** The sum of the values of a map. */
  ghost function Total(m: map<UserId, nat>): nat
    decreases |m.Keys|
  {
    if m == map[] then 0
    else
      var k :| k in m;
      m[k] + Total(m - {k})
  }

  /** Taking any one key out of the sum. */
  lemma {:induction false} TotalRemove(m: map<UserId, nat>, k: UserId)
    requires k in m
    ensures Total(m) == m[k] + Total(m - {k})
    decreases |m.Keys|
  {
    var j :| j in m && Total(m) == m[j] + Total(m - {j});
    if j != k {
      TotalRemove(m - {j}, k);
      TotalRemove(m - {k}, j);
      assert m - {j} - {k} == m - {k} - {j};
    }
  }

  /** A map's sum after one value is set to w. */
  lemma TotalUpdate(m: map<UserId, nat>, k: UserId, w: nat)
    ensures Total(m[k := w]) == Total(m) + w - (if k in m then m[k] else 0)
  {
    TotalRemove(m[k := w], k);
    assert m[k := w] - {k} == m - {k};
    if k in m {
      TotalRemove(m, k);
    } else {
      assert m - {k} == m;
    }
  }

  /** update_leaderboard: one more accepted number for u. */
  function Bump(lb: map<UserId, nat>, u: UserId): (r: map<UserId, nat>)
    ensures r.Keys == lb.Keys + {u}
    ensures r[u] == (if u in lb then lb[u] else 0) + 1
    ensures forall v | v in lb && v != u :: r[v] == lb[v]
  {
    lb[u := (if u in lb then lb[u] else 0) + 1]
  }

  lemma BumpTotal(lb: map<UserId, nat>, u: UserId)
    ensures Total(Bump(lb, u)) == Total(lb) + 1
  {
    TotalUpdate(lb, u, Bump(lb, u)[u]);
  }

  /** What the game keeps true: the total is the leaderboard's sum, and the
      count never falls below 0 or climbs past the highest count. */
  ghost predicate Consistent(g: Game)
  {
    g.total == Total(g.leaderboard) && 0 <= g.current <= g.highest
  }

  lemma DefaultConsistent()
    ensures Consistent(DefaultGuild().game)
  {
    assert Total(map[]) == 0;
  }

  /** reset_count's bookkeeping: the count starts over, the mistake and
      reset counters move, and with save_progress the streak record keeps
      the count that was lost. */
  function ResetGame(g: Game, saveProgress: bool, now: real): Game
  {
    var streak := if saveProgress && g.current > 0 && g.current > g.streakRecord then g.current else g.streakRecord;
    g.(current := 0, lastUser := None, mistakes := g.mistakes + 1, resets := g.resets + 1,
       lastReset := Some(now), streakRecord := streak)
  }

  lemma ResetGameEffect(g: Game, saveProgress: bool, now: real)
    ensures var r := ResetGame(g, saveProgress, now);
      r.current == 0 && r.lastUser == None
      && r.mistakes == g.mistakes + 1 && r.resets == g.resets + 1
      && r.highest == g.highest && r.total == g.total && r.leaderboard == g.leaderboard
      && r.streakRecord >= g.streakRecord
      && (saveProgress && g.current > 0 ==> r.streakRecord >= g.current)
      && (!saveProgress ==> r.streakRecord == g.streakRecord)
      && (r.streakRecord == g.streakRecord || r.streakRecord == g.current)
      && (Consistent(g) ==> Consistent(r))
  {
  }

  /** An accepted number n from u. */
  function Counted(g: Game, u: UserId, n: int): Game
  {
    g.(current := n, lastUser := Some(u), total := g.total + 1,
       highest := if n > g.highest then n else g.highest, leaderboard := Bump(g.leaderboard, u))
  }

  /** An accepted number becomes the count and moves the total, u's
      leaderboard entry and the game's consistency along with it. */
  lemma CountedEffect(g: Game, u: UserId)
    requires Consistent(g)
    ensures var r := Counted(g, u, g.current + 1);
      r.current == g.current + 1 && r.lastUser == Some(u)
      && r.total == g.total + 1 && r.highest == Max(g.highest, g.current + 1)
      && r.mistakes == g.mistakes && r.resets == g.resets && r.streakRecord == g.streakRecord
      && Consistent(r)
  {
    BumpTotal(g.leaderboard, u);
  }

  // ---------------------------------------------------------------------
  // Violations

  function ViolationsOf(vs: map<UserId, Violation>, u: UserId): nat
  {
    if u in vs then vs[u].count else 0
  }

  /** update_violations and the counter part of handle_violation: one more
      violation for u; reaching the threshold clears u's count and mutes u
      when the guild mutes violators. The result is the new guild data, the
      count the member is told, and whether a timeout is imposed. */
  function Violate(d: GuildData, u: UserId, now: real): (GuildData, nat, bool)
  {
    var c := ViolationsOf(d.violations, u) + 1;
    var reached := c >= d.settings.spamThreshold;
    var vs := d.violations[u := Violation(if reached then 0 else c, Some(now))];
    (d.(violations := vs), c, reached && d.settings.muteViolators)
  }

  /** A violation reports u's previous count plus one, touches nobody
      else's record and leaves u's stored count under the threshold when it
      was under before; the count and the settings are not touched. */
  lemma ViolateEffect(d: GuildData, u: UserId, now: real)
    ensures var (r, c, muted) := Violate(d, u, now);
      c == ViolationsOf(d.violations, u) + 1
      && r.game == d.game && r.settings == d.settings
      && r.violations.Keys == d.violations.Keys + {u}
      && (forall v | v in d.violations && v != u :: r.violations[v] == d.violations[v])
      && (c >= d.settings.spamThreshold <==> r.violations[u].count == 0)
      && (ViolationsOf(d.violations, u) < d.settings.spamThreshold ==> r.violations[u].count < d.settings.spamThreshold)
      && (muted <==> c >= d.settings.spamThreshold && d.settings.muteViolators)
  {
  }

  // ---------------------------------------------------------------------
  // Reading a message

  /** Whether the message is a number: in strict mode only the canonical
      decimal text of an integer is, anything else is a rule broken; in
      normal mode whatever int() takes is, and anything else is ignored. */
  datatype Parsed = Ignore | Reject | Number(n: int)

  function Parse(onlyNumbers: bool, message: string): Parsed
  {
    if onlyNumbers then
      var content := Strip(message);
      match ParseInt(content)
      case Some(n) => if Show(n) == content then Number(n) else Reject
      case None => Reject
    else
      match ParseInt(message)
      case Some(n) => Number(n)
      case None => Ignore
  }

  /** In strict mode a message counts as a number exactly when its stripped
      text is canonical, and that text is then the number as str() prints it;
      normal mode never rejects, it ignores what int() refuses. */
  lemma ParseIffCanonical(message: string)
    ensures Parse(true, message).Number? <==> Canonical(Strip(message))
    ensures Parse(true, message).Number? ==> Show(Parse(true, message).n) == Strip(message)
    ensures !Parse(true, message).Ignore?
    ensures Parse(false, message) != Reject
    ensures Parse(false, message) == Ignore <==> ParseInt(message) == None
  {
    StrictIntegerIffCanonical(Strip(message));
  }

  /** int() and strip() drop Unicode whitespace as well: "7" followed by an
      ideographic space counts as 7 in both modes. */
  lemma WideSpaceCounts()
    ensures Parse(true, "7\U{3000}") == Number(7)
    ensures Parse(false, "\U{2028}7\U{3000}") == Number(7)
  {
    assert Strip("7\U{3000}") == "7";
    assert Strip("\U{2028}7\U{3000}") == "7";
    ParseShow(7);
  }

  /** What a message did, as the channel is told. */
  datatype Outcome =
    | NotCounting
    | Ignored
    | Invalid(violations: nat, muted: bool)
    | Wrong(expected: int, actual: int, violations: nat, muted: bool)
    | SameUser(violations: nat, muted: bool)
    | Accepted(number: int, milestone: bool, hundred: bool)

  /** on_message after the bot check: the guild data afterwards and the
      outcome. */
  function Step(d: GuildData, author: UserId, channel: ChannelId, message: string, now: real): (GuildData, Outcome)
  {
    if !d.settings.enabled || d.settings.channelId != Some(channel) then (d, NotCounting)
    else
      var expected := d.game.current + 1;
      match Parse(d.settings.onlyNumbers, message)
      case Ignore => (d, Ignored)
      case Reject =>
        var (r, c, muted) := Violate(d, author, now);
        (r, Invalid(c, muted))
      case Number(n) =>
        if n != expected then
          var (r, c, muted) := Violate(d, author, now);
          (r.(game := ResetGame(d.game, d.settings.saveProgress, now)), Wrong(expected, n, c, muted))
        else if d.game.lastUser == Some(author) then
          var (r, c, muted) := Violate(d, author, now);
          (r, SameUser(c, muted))
        else
          (d.(game := Counted(d.game, author, n)), Accepted(n, n in d.settings.milestones, n % 100 == 0 && n > 0))
  }

  /** A message is accepted exactly when the game is on in its channel, it
      reads as the next number and its author did not post the last one;
      then it is the new count. */
  lemma StepAccepts(d: GuildData, author: UserId, channel: ChannelId, message: string, now: real)
    requires Consistent(d.game)
    ensures var (r, o) := Step(d, author, channel, message, now);
      (o.Accepted? <==>
        d.settings.enabled && d.settings.channelId == Some(channel)
        && Parse(d.settings.onlyNumbers, message) == Number(d.game.current + 1)
        && d.game.lastUser != Some(author))
      && (o.Accepted? ==> r.game == Counted(d.game, author, d.game.current + 1) && r.violations == d.violations)
      && r.settings == d.settings
      && Consistent(r.game)
  {
    var (r, o) := Step(d, author, channel, message, now);
    if o.Accepted? {
      CountedEffect(d.game, author);
    }
  }

  /** A wrong number resets the game and costs its author a violation;
      text that is not a number and a second number in a row cost a
      violation and leave the game alone. */
  lemma StepMistakes(d: GuildData, author: UserId, channel: ChannelId, message: string, now: real)
    ensures var (r, o) := Step(d, author, channel, message, now);
      (o.Wrong? ==> r.game == ResetGame(d.game, d.settings.saveProgress, now)
                    && o.violations == ViolationsOf(d.violations, author) + 1
                    && o.expected == d.game.current + 1 && o.actual != o.expected)
      && (o.Invalid? ==> r.game == d.game && o.violations == ViolationsOf(d.violations, author) + 1)
      && (o.SameUser? ==> r.game == d.game && o.violations == ViolationsOf(d.violations, author) + 1
                          && d.game.lastUser == Some(author))
      && (o.Invalid? ==> d.settings.onlyNumbers && !Canonical(Strip(message)))
      && (o.NotCounting? || o.Ignored? ==> r == d)
  {
    ParseIffCanonical(message);
  }

  // ---------------------------------------------------------------------
  // Settings

  datatype SettingResult = NeedsNumber | OutOfRange | NeedsValue | NotBoolean | Locked | UnknownSetting | Updated

  const LockedSettings: seq<string> := ["allow_same_user", "reset_on_mistake", "strict_mode"]
  const BoolSettings: seq<string> := ["delete_wrong_messages", "mute_violators", "auto_react", "save_progress", "only_numbers"]

  function BoolToken(value: string): Option<bool>
  {
    var v := Lower(value);
    if v in ["true", "yes", "on", "1"] then Some(true)
    else if v in ["false", "no", "off", "0"] then Some(false)
    else None
  }

  /** The five switches the command may change. */
  datatype Switch = DeleteWrong | MuteViolators | AutoReact | SaveProgress | OnlyNumbers

  /** A setting name as the command reads it. */
  datatype SettingName = ViolationTimeout | SpamThreshold | SwitchOf(w: Switch) | LockedName | UnknownName

  function NameOf(setting: string): SettingName
  {
    if setting == "violation_timeout" then ViolationTimeout
    else if setting == "spam_threshold" then SpamThreshold
    else if setting == "delete_wrong_messages" then SwitchOf(DeleteWrong)
    else if setting == "mute_violators" then SwitchOf(MuteViolators)
    else if setting == "auto_react" then SwitchOf(AutoReact)
    else if setting == "save_progress" then SwitchOf(SaveProgress)
    else if setting == "only_numbers" then SwitchOf(OnlyNumbers)
    else if setting in LockedSettings then LockedName
    else UnknownName
  }

  /** The names the command knows: the two numeric settings, the five
      switches and the three locked settings. */
  lemma NameOfTable(setting: string)
    ensures NameOf(setting).SwitchOf? <==> setting in BoolSettings
    ensures NameOf(setting) == LockedName <==> setting in LockedSettings
    ensures NameOf(setting) == ViolationTimeout <==> setting == "violation_timeout"
    ensures NameOf(setting) == SpamThreshold <==> setting == "spam_threshold"
  {
  }

  function SetSwitch(s: Settings, w: Switch, b: bool): Settings
  {
    match w
    case DeleteWrong => s.(deleteWrong := b)
    case MuteViolators => s.(muteViolators := b)
    case AutoReact => s.(autoReact := b)
    case SaveProgress => s.(saveProgress := b)
    case OnlyNumbers => s.(onlyNumbers := b)
  }

  /** change_setting: the result and the settings afterwards. The numeric
      settings are checked first; for the others the value must be a
      true/false token before the name is looked at. */
  function ApplySetting(s: Settings, name: SettingName, value: Option<string>): (SettingResult, Settings)
  {
    if name == ViolationTimeout || name == SpamThreshold then
      if value.None? || !IsDigitString(value.value) then (NeedsNumber, s)
      else
        var n := DigitsValue(value.value);
        if name == ViolationTimeout then
          if n < 10 || n > 3600 then (OutOfRange, s) else (Updated, s.(violationTimeout := n))
        else
          if n < 1 || n > 10 then (OutOfRange, s) else (Updated, s.(spamThreshold := n))
    else if value.None? || value.value == "" then (NeedsValue, s)
    else if BoolToken(value.value).None? then (NotBoolean, s)
    else if name == LockedName then (Locked, s)
    else if !name.SwitchOf? then (UnknownSetting, s)
    else (Updated, SetSwitch(s, name.w, BoolToken(value.value).value))
  }

  /** The numeric settings stay in the ranges the command enforces. */
  ghost predicate SettingsInRange(s: Settings)
  {
    10 <= s.violationTimeout <= 3600 && 1 <= s.spamThreshold <= 10
  }

  /** A rejected input leaves the settings alone, and so does any value
      for a locked setting. */
  lemma ApplySettingRejects(s: Settings, name: SettingName, value: Option<string>)
    ensures var (res, r) := ApplySetting(s, name, value);
      (res != Updated ==> r == s) && (name == LockedName ==> res != Updated && r == s)
  {
  }

  /** A setting is updated exactly for a number in range for the two numeric
      settings and a true/false token for the five switches; the setting
      then holds that value. */
  lemma ApplySettingAccepts(s: Settings, name: SettingName, value: Option<string>)
    ensures var (res, r) := ApplySetting(s, name, value);
      (res == Updated <==>
        ((name == ViolationTimeout || name == SpamThreshold)
         && value.Some? && IsDigitString(value.value)
         && (if name == ViolationTimeout then 10 <= DigitsValue(value.value) <= 3600
             else 1 <= DigitsValue(value.value) <= 10))
        || (name.SwitchOf? && value.Some? && BoolToken(value.value).Some?))
      && (res == Updated && name == ViolationTimeout ==> r == s.(violationTimeout := DigitsValue(value.value)))
      && (res == Updated && name == SpamThreshold ==> r == s.(spamThreshold := DigitsValue(value.value)))
      && (res == Updated && name.SwitchOf? ==> r == SetSwitch(s, name.w, BoolToken(value.value).value))
  {
    if value.Some? && value.value == "" {
      assert BoolToken("") == None;
    }
  }

  /** An update never touches the game channel, the switch or the
      milestones ... */
  lemma ApplySettingKeeps(s: Settings, name: SettingName, value: Option<string>)
    ensures var r := ApplySetting(s, name, value).1;
      r.channelId == s.channelId && r.enabled == s.enabled && r.milestones == s.milestones
  {
    if name.SwitchOf? && value.Some? && BoolToken(value.value).Some? {
      SetSwitchKeeps(s, name.w, BoolToken(value.value).value);
    }
  }

  /** ... and keeps the numeric settings in range. */
  lemma ApplySettingInRange(s: Settings, name: SettingName, value: Option<string>)
    requires SettingsInRange(s)
    ensures SettingsInRange(ApplySetting(s, name, value).1)
  {
    match name
    case ViolationTimeout =>
    case SpamThreshold =>
    case SwitchOf(w) =>
      if value.Some? && BoolToken(value.value).Some? {
        SetSwitchKeeps(s, w, BoolToken(value.value).value);
      }
    case LockedName =>
    case UnknownName =>
  }

  lemma SetSwitchKeeps(s: Settings, w: Switch, b: bool)
    ensures var r := SetSwitch(s, w, b);
      r.channelId == s.channelId && r.enabled == s.enabled && r.milestones == s.milestones
      && r.spamThreshold == s.spamThreshold && r.violationTimeout == s.violationTimeout
  {
    match w
    case DeleteWrong =>
    case MuteViolators =>
    case AutoReact =>
    case SaveProgress =>
    case OnlyNumbers =>
  }

  lemma DefaultInRange()
    ensures SettingsInRange(DefaultGuild().settings)
  {
  }

  // ---------------------------------------------------------------------
  // Loops over the stored data

  function Counts(vs: map<UserId, Violation>): map<UserId, nat>
  {
    map u | u in vs :: vs[u].count
  }

  /** The number of violations clear_violations reports for the guild. */
  method SumCounts(vs: map<UserId, Violation>) returns (total: nat)
    ensures total == Total(Counts(vs))
  {
    total := 0;
    var rest := vs;
    while rest != map[]
      invariant total + Total(Counts(rest)) == Total(Counts(vs))
      decreases |rest.Keys|
    {
      var u :| u in rest;
      TotalRemove(Counts(rest), u);
      assert Counts(rest) - {u} == Counts(rest - {u});
      total := total + rest[u].count;
      rest := rest - {u};
    }
    assert Counts(rest) == map[];
  }

  /** on_message, after the bot check and get_guild_data. */
  method HandleMessage(d: GuildData, author: UserId, channel: ChannelId, message: string, now: real)
    returns (r: GuildData, outcome: Outcome)
    ensures (r, outcome) == Step(d, author, channel, message, now)
  {
    r := d;
    if !d.settings.enabled || d.settings.channelId != Some(channel) {
      return d, NotCounting;
    }
    var expected := d.game.current + 1;
    var parsed := Parse(d.settings.onlyNumbers, message);
    if parsed.Ignore? {
      return d, Ignored;
    }
    if parsed.Reject? {
      var v := Violate(d, author, now);
      return v.0, Invalid(v.1, v.2);
    }
    var n := parsed.n;
    if n != expected {
      var v := Violate(d, author, now);
      r := v.0.(game := ResetGame(d.game, d.settings.saveProgress, now));
      return r, Wrong(expected, n, v.1, v.2);
    }
    if d.game.lastUser == Some(author) {
      var v := Violate(d, author, now);
      return v.0, SameUser(v.1, v.2);
    }
    r := d.(game := Counted(d.game, author, n));
    outcome := Accepted(n, n in d.settings.milestones, n % 100 == 0 && n > 0);
  }

  // ---------------------------------------------------------------------
  // The cog

  /** The counting cog: one record per guild, created with the defaults on
      first use. */
  class CountingCog {
    var guilds: map<GuildId, GuildData>

    constructor ()
      ensures guilds == map[]
    {
      guilds := map[];
    }

    /** get_guild_data: the guild's record, created if missing. */
    method GetGuildData(g: GuildId) returns (d: GuildData)
      modifies this
      ensures d == GuildOf(old(guilds), g)
      ensures guilds == old(guilds)[g := d]
    {
      if g !in guilds {
        guilds := guilds[g := DefaultGuild()];
      }
      d := guilds[g];
    }

    /** on_message: bots are ignored before the record is even created. */
    method OnMessage(g: GuildId, author: UserId, isBot: bool, channel: ChannelId, message: string, now: real)
      returns (outcome: Outcome)
      modifies this
      ensures isBot ==> guilds == old(guilds) && outcome == NotCounting
      ensures !isBot ==>
        var (r, o) := Step(GuildOf(old(guilds), g), author, channel, message, now);
        guilds == old(guilds)[g := r] && outcome == o
    {
      if isBot {
        return NotCounting;
      }
      var d := GetGuildData(g);
      var r;
      r, outcome := HandleMessage(d, author, channel, message, now);
      guilds := guilds[g := r];
    }

    /** setup: the channel becomes the counting channel and the game is on. */
    method Setup(g: GuildId, channel: ChannelId)
      modifies this
      ensures var d := GuildOf(old(guilds), g);
        guilds == old(guilds)[g := d.(settings := d.settings.(channelId := Some(channel), enabled := true))]
    {
      var d := GetGuildData(g);
      guilds := guilds[g := d.(settings := d.settings.(channelId := Some(channel), enabled := true))];
    }

    /** enable: refused while no channel is set (a channel id of 0 reads as
        none). */
    method Enable(g: GuildId) returns (ok: bool)
      modifies this
      ensures var d := GuildOf(old(guilds), g);
        ok == (d.settings.channelId.Some? && d.settings.channelId.value != 0)
        && guilds == old(guilds)[g := if ok then d.(settings := d.settings.(enabled := true)) else d]
    {
      var d := GetGuildData(g);
      ok := d.settings.channelId.Some? && d.settings.channelId.value != 0;
      if ok {
        guilds := guilds[g := d.(settings := d.settings.(enabled := true))];
      }
    }

    method Disable(g: GuildId)
      modifies this
      ensures var d := GuildOf(old(guilds), g);
        guilds == old(guilds)[g := d.(settings := d.settings.(enabled := false))]
    {
      var d := GetGuildData(g);
      guilds := guilds[g := d.(settings := d.settings.(enabled := false))];
    }

    /** reset: refused when the count is already 0; otherwise the same
        bookkeeping as a mistake. */
    method ResetCounting(g: GuildId, now: real) returns (ok: bool)
      modifies this
      ensures var d := GuildOf(old(guilds), g);
        ok == (d.game.current != 0)
        && guilds == old(guilds)[g := if ok then d.(game := ResetGame(d.game, d.settings.saveProgress, now)) else d]
    {
      var d := GetGuildData(g);
      ok := d.game.current != 0;
      if ok {
        guilds := guilds[g := d.(game := ResetGame(d.game, d.settings.saveProgress, now))];
      }
    }

    /** setting: change one setting if the input is acceptable. */
    method ChangeSetting(g: GuildId, setting: string, value: Option<string>) returns (result: SettingResult)
      modifies this
      ensures var d := GuildOf(old(guilds), g);
        var (res, s) := ApplySetting(d.settings, NameOf(setting), value);
        result == res && guilds == old(guilds)[g := d.(settings := s)]
    {
      var d := GetGuildData(g);
      var applied := ApplySetting(d.settings, NameOf(setting), value);
      result := applied.0;
      guilds := guilds[g := d.(settings := applied.1)];
    }

    /** clearviolations for one user: a user with a record has it zeroed and
        is told the old count; otherwise nothing changes. */
    method ClearUserViolations(g: GuildId, u: UserId) returns (cleared: Option<nat>)
      modifies this
      ensures var d := GuildOf(old(guilds), g);
        (u in d.violations ==>
           cleared == Some(d.violations[u].count)
           && guilds == old(guilds)[g := d.(violations := d.violations[u := Violation(0, None)])])
        && (u !in d.violations ==> cleared == None && guilds == old(guilds)[g := d])
    {
      var d := GetGuildData(g);
      if u in d.violations {
        cleared := Some(d.violations[u].count);
        guilds := guilds[g := d.(violations := d.violations[u := Violation(0, None)])];
      } else {
        cleared := None;
      }
    }

    /** clearviolations for the guild: every record goes, and the number of
        violations they held is reported. */
    method ClearAllViolations(g: GuildId) returns (total: nat)
      modifies this
      ensures var d := GuildOf(old(guilds), g);
        total == Total(Counts(d.violations)) && guilds == old(guilds)[g := d.(violations := map[])]
    {
      var d := GetGuildData(g);
      total := SumCounts(d.violations);
      guilds := guilds[g := d.(violations := map[])];
    }
  }
}
