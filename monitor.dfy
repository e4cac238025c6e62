/** Message monitoring: a moderator marks a member of a guild, in one
    channel or in the whole guild, and every later message the member
    sends there is replaced by an empty one. The marks persist in a JSON
    file whose object keys are the decimal texts of the ids. */
module Monitor {
  import opened Util
  import opened Decimal

  /** Where a member is monitored: everywhere in the guild ('all') or in
      one channel. */
  datatype Scope = Everywhere | InChannel(channel: ChannelId)

  type Monitored = map<GuildId, map<UserId, Scope>>

  /** The JSON document: the same nesting with text keys. */
  type Saved = map<string, map<string, Scope>>

  // ---------------------------------------------------------------------
  // Persistence

  /** json.dump of a dict with integer keys writes each key as str(key). */
  function SaveKeys<V>(m: map<nat, V>): (d: map<string, V>)
    ensures forall n | n in m :: Show(n) in d && d[Show(n)] == m[n]
    ensures forall k | k in d :: exists n :: n in m && k == Show(n)
  {
    assert forall a: nat, b: nat | a in m && b in m && Show(a) == Show(b) :: a == b by {
      forall a: nat, b: nat | a in m && b in m && Show(a) == Show(b)
        ensures a == b
      {
        ShowInjective(a, b);
      }
    }
    map n | n in m :: Show(n) := m[n]
  }

  function Save(m: Monitored): Saved
  {
    SaveKeys(map g | g in m :: SaveKeys(m[g]))
  }

  /** A key as save_data writes it: int() reads it back to an id whose
      decimal text it is. */
  predicate IdKey(k: string)
  {
    ParseInt(k).Some? && ParseInt(k).value >= 0 && Show(ParseInt(k).value) == k
  }

  predicate KeysLoadable<V>(d: map<string, V>)
  {
    forall k | k in d :: IdKey(k)
  }

  /** The ids the keys of d name. */
  function KeyIds<V>(d: map<string, V>): set<nat>
    requires KeysLoadable(d)
  {
    set k | k in d :: ParseInt(k).value as nat
  }

  /** The key conversion of load_data; None for a document it cannot read. */
  function LoadKeys<V>(d: map<string, V>): Option<map<nat, V>>
  {
    if KeysLoadable(d) then Some(map n | n in KeyIds(d) :: d[Show(n)]) else None
  }

  function Load(d: Saved): Option<Monitored>
  {
    if forall k | k in d :: LoadKeys(d[k]).Some? then
      LoadKeys(map k | k in d :: LoadKeys(d[k]).value)
    else None
  }

  /** Every key save writes can be read back. */
  lemma SavedLoadable<V>(m: map<nat, V>)
    ensures KeysLoadable(SaveKeys(m))
  {
    forall k | k in SaveKeys(m)
      ensures IdKey(k)
    {
      var n :| n in m && k == Show(n);
      ParseShow(n);
    }
  }

  /** The ids read back from the saved keys are the ids of the map. */
  lemma SavedIds<V>(m: map<nat, V>)
    requires KeysLoadable(SaveKeys(m))
    ensures KeyIds(SaveKeys(m)) == m.Keys
  {
    forall n | n in KeyIds(SaveKeys(m))
      ensures n in m
    {
      var k :| k in SaveKeys(m) && n == ParseInt(k).value as nat;
      var n' :| n' in m && k == Show(n');
      ParseShow(n');
    }
    forall n | n in m
      ensures n in KeyIds(SaveKeys(m))
    {
      ParseShow(n);
      assert Show(n) in SaveKeys(m);
    }
  }

  /** Reading back what was written gives the same map. */
  lemma LoadSaveKeys<V>(m: map<nat, V>)
    ensures LoadKeys(SaveKeys(m)) == Some(m)
  {
    SavedLoadable(m);
    SavedIds(m);
    SameMap(LoadKeys(SaveKeys(m)).value, m);
  }

  /** Writing back what was read gives the same document. */
  lemma SaveLoadKeys<V>(d: map<string, V>)
    requires LoadKeys(d).Some?
    ensures SaveKeys(LoadKeys(d).value) == d
  {
    var l := LoadKeys(d).value;
    forall k | k in d
      ensures k in SaveKeys(l)
    {
      assert ParseInt(k).value as nat in KeyIds(d);
    }
    forall k | k in SaveKeys(l)
      ensures k in d
    {
      var n :| n in l && k == Show(n);
    }
    SameMap(SaveKeys(l), d);
  }

  lemma SameMap<K, V>(a: map<K, V>, b: map<K, V>)
    requires a.Keys == b.Keys
    requires forall k | k in a :: a[k] == b[k]
    ensures a == b
  {
  }

  /** Maps with the same ids are saved with the same keys. */
  lemma SaveKeysSameKeys<V, W>(a: map<nat, V>, b: map<nat, W>)
    requires a.Keys == b.Keys
    ensures SaveKeys(a).Keys == SaveKeys(b).Keys
  {
  }

  /** Each inner document of a saved map reads back to its inner map. */
  lemma SavedInnerLoads(m: Monitored)
    ensures forall k | k in Save(m) :: k in SaveKeys(m) && LoadKeys(Save(m)[k]) == Some(SaveKeys(m)[k])
  {
    var inner := map g | g in m :: SaveKeys(m[g]);
    forall k | k in Save(m)
      ensures k in SaveKeys(m) && LoadKeys(Save(m)[k]) == Some(SaveKeys(m)[k])
    {
      var g :| g in inner && k == Show(g);
      LoadSaveKeys(m[g]);
    }
  }

  /** Unwrapping inner documents that all read back. */
  lemma Unwrapped(d: Saved, e: map<string, map<UserId, Scope>>)
    requires d.Keys == e.Keys
    requires forall k | k in d :: LoadKeys(d[k]) == Some(e[k])
    ensures (map k | k in d :: LoadKeys(d[k]).value) == e
  {
  }

  /** The inner documents of a saved map read back to the inner maps. */
  lemma LoadSavedInner(m: Monitored)
    ensures forall k | k in Save(m) :: LoadKeys(Save(m)[k]).Some?
    ensures (map k | k in Save(m) :: LoadKeys(Save(m)[k]).value) == SaveKeys(m)
  {
    SaveKeysSameKeys(map g | g in m :: SaveKeys(m[g]), m);
    SavedInnerLoads(m);
    Unwrapped(Save(m), SaveKeys(m));
  }

  /** load_data(save_data(m)) == m. */
  lemma LoadSave(m: Monitored)
    ensures Load(Save(m)) == Some(m)
  {
    LoadSavedInner(m);
    LoadSaveKeys(m);
  }

  /** What the cog starts with: the file's marks, or none when there is
      no file or load_data fails on it. */
  function Restore(file: Option<Saved>): (m: Monitored)
    ensures file.None? ==> m == map[]
  {
    match file
    case None => map[]
    case Some(d) =>
      match Load(d)
      case Some(m) => m
      case None => map[]
  }

  /** A restart restores what was last saved. */
  lemma RestoreSaved(m: Monitored)
    ensures Restore(Some(Save(m))) == m
  {
    LoadSave(m);
    RestoreLoaded(Save(m), m);
  }

  lemma RestoreLoaded(d: Saved, m: Monitored)
    requires Load(d) == Some(m)
    ensures Restore(Some(d)) == m
  {
  }

  // ---------------------------------------------------------------------
  // The marks

  /** The scope argument of monitor_empty: server, guild or all in any
      case mean the whole guild, anything else the invoking channel. */
  function ScopeOf(arg: string, here: ChannelId): (s: Scope)
    ensures s == Everywhere <==> Lower(arg) in ["server", "guild", "all"]
    ensures s != Everywhere ==> s == InChannel(here)
  {
    if Lower(arg) in ["server", "guild", "all"] then Everywhere else InChannel(here)
  }

  /** Whether a message is replaced: not from a bot, in a guild (a guild id
      of 0 counts as none), from a marked member, in the marked scope. */
  predicate Replaces(m: Monitored, fromBot: bool, guild: Option<GuildId>, author: UserId, channel: ChannelId)
  {
    !fromBot && guild.Some? && guild.value != 0 && guild.value in m && author in m[guild.value]
    && (m[guild.value][author] == Everywhere || m[guild.value][author] == InChannel(channel))
  }

  function Mark(m: Monitored, g: GuildId, u: UserId, s: Scope): Monitored
  {
    m[g := (if g in m then m[g] else map[])[u := s]]
  }

  /** unmonitor_user; false when the member was not marked. */
  function Unmark(m: Monitored, g: GuildId, u: UserId): (Monitored, bool)
  {
    if g in m && u in m[g] then
      (if m[g] - {u} == map[] then m - {g} else m[g := m[g] - {u}], true)
    else (m, false)
  }

  /** After monitor_empty the member's messages in that guild are replaced
      in exactly the scope asked for, whatever the earlier scope was, and
      nobody else's marks change. */
  lemma MarkEffect(m: Monitored, g: GuildId, u: UserId, arg: string, here: ChannelId,
                   fromBot: bool, guild: Option<GuildId>, author: UserId, channel: ChannelId)
    requires g != 0
    ensures var r := Mark(m, g, u, ScopeOf(arg, here));
      (guild == Some(g) && author == u ==>
        (Replaces(r, fromBot, guild, author, channel) <==>
          !fromBot && (Lower(arg) in ["server", "guild", "all"] || channel == here)))
      && (guild != Some(g) || author != u ==>
        Replaces(r, fromBot, guild, author, channel) == Replaces(m, fromBot, guild, author, channel))
  {
  }

  /** After unmonitor the member's messages are left alone, and nobody
      else's marks change; an unmarked member changes nothing. */
  lemma UnmarkEffect(m: Monitored, g: GuildId, u: UserId,
                     fromBot: bool, guild: Option<GuildId>, author: UserId, channel: ChannelId)
    ensures var (r, found) := Unmark(m, g, u);
      found == (g in m && u in m[g])
      && (!found ==> r == m)
      && (guild == Some(g) && author == u ==> !Replaces(r, fromBot, guild, author, channel))
      && (guild != Some(g) || author != u ==>
        Replaces(r, fromBot, guild, author, channel) == Replaces(m, fromBot, guild, author, channel))
  {
    var (r, found) := Unmark(m, g, u);
    if found && m[g] - {u} == map[] && guild == Some(g) && author != u {
      assert author !in m[g] - {u};
    }
  }

  /** Unmarking right after marking a member who was not marked gives back
      the marks as they were, as long as no guild entry was empty. */
  lemma UnmarkUndoesMark(m: Monitored, g: GuildId, u: UserId, s: Scope)
    requires forall h | h in m :: m[h] != map[]
    requires !(g in m && u in m[g])
    ensures Unmark(Mark(m, g, u, s), g, u) == (m, true)
  {
    var r := Mark(m, g, u, s);
    if g in m {
      assert r[g] - {u} == m[g];
      assert r[g := r[g] - {u}] == m;
    } else {
      assert r[g] - {u} == map[];
      assert r - {g} == m;
    }
  }

  // ---------------------------------------------------------------------
  // Listing, as written and corrected

  /** list_monitored as written: it deletes a departed member from the
      dict it is iterating over, so the next step of the iteration raises
      and the command stops there. order is the dict's iteration order,
      which a map does not record. The result is the guild's marks
      afterwards and whether the listing was sent. */
  function ListAsWritten(marks: map<UserId, Scope>, order: seq<UserId>, present: set<UserId>): (map<UserId, Scope>, bool)
    decreases |order|
  {
    if order == [] then (marks, true)
    else if order[0] in marks && order[0] !in present then (marks - {order[0]}, false)
    else ListAsWritten(marks, order[1..], present)
  }

  /** With two departed members, the listing as written fails and one of
      the two is still marked. */
  lemma ListAsWrittenKeepsDeparted(a: UserId, b: UserId, s: Scope)
    requires a != b
    ensures var (r, sent) := ListAsWritten(map[a := s, b := s], [a, b], {});
      !sent && b in r
  {
  }

  /** The listing the cleanup evidently intends: every marked member who is
      still in the guild is listed with their scope, every departed one is
      unmarked. */
  function Prune(marks: map<UserId, Scope>, present: set<UserId>): (r: map<UserId, Scope>)
    ensures r.Keys == marks.Keys * present
    ensures forall u | u in r :: r[u] == marks[u]
  {
    map u | u in marks && u in present :: marks[u]
  }

  /** The corrected listing keeps exactly the members present and is
      idempotent. */
  lemma PruneIdempotent(marks: map<UserId, Scope>, present: set<UserId>)
    ensures Prune(Prune(marks, present), present) == Prune(marks, present)
    ensures marks.Keys <= present ==> Prune(marks, present) == marks
  {
  }

  // ---------------------------------------------------------------------
  // The cog

  class MonitorCog {
    var monitored: Monitored

    /** The cog reads the file at start. */
    constructor (file: Option<Saved>)
      ensures monitored == Restore(file)
    {
      monitored := Restore(file);
    }

    /** The document save_data writes. */
    function SavedState(): (d: Saved)
      reads this
      ensures Load(d) == Some(monitored)
    {
      LoadSave(monitored);
      Save(monitored)
    }

    /** on_message: whether the message is replaced. */
    function OnMessage(fromBot: bool, guild: Option<GuildId>, author: UserId, channel: ChannelId): (r: bool)
      reads this
      ensures fromBot ==> !r
      ensures r ==> guild.Some? && guild.value in monitored && author in monitored[guild.value]
      ensures (!fromBot && guild.Some? && guild.value != 0 && guild.value in monitored
               && author in monitored[guild.value] && monitored[guild.value][author] == Everywhere)
              ==> r
      ensures r && monitored[guild.value][author] != Everywhere ==> monitored[guild.value][author] == InChannel(channel)
    {
      Replaces(monitored, fromBot, guild, author, channel)
    }

    method MonitorUser(g: GuildId, u: UserId, arg: string, here: ChannelId)
      modifies this
      ensures monitored == Mark(old(monitored), g, u, ScopeOf(arg, here))
    {
      var marks: map<UserId, Scope> := if g in monitored then monitored[g] else map[];
      if Lower(arg) in ["server", "guild", "all"] {
        marks := marks[u := Everywhere];
      } else {
        marks := marks[u := InChannel(here)];
      }
      monitored := monitored[g := marks];
    }

    method UnmonitorUser(g: GuildId, u: UserId) returns (found: bool)
      modifies this
      ensures (monitored, found) == Unmark(old(monitored), g, u)
    {
      found := g in monitored && u in monitored[g];
      if found {
        var rest := monitored[g] - {u};
        if rest == map[] {
          monitored := monitored - {g};
        } else {
          monitored := monitored[g := rest];
        }
      }
    }

    /** monitored_list with the cleanup completed: None when the guild has
        no marks, else the marks listed; departed members are unmarked. */
    method ListMonitored(g: GuildId, present: set<UserId>) returns (listed: Option<map<UserId, Scope>>)
      modifies this
      ensures g !in old(monitored) || old(monitored)[g] == map[] ==> listed.None? && monitored == old(monitored)
      ensures g in old(monitored) && old(monitored)[g] != map[] ==>
        listed == Some(Prune(old(monitored)[g], present))
        && monitored == old(monitored)[g := Prune(old(monitored)[g], present)]
    {
      if g !in monitored || monitored[g] == map[] {
        return None;
      }
      var kept := Prune(monitored[g], present);
      monitored := monitored[g := kept];
      listed := Some(kept);
    }

    /** clear_monitors: the number of marks removed, None when the guild
        has no entry. */
    method ClearAllMonitors(g: GuildId) returns (count: Option<nat>)
      modifies this
      ensures g in old(monitored) ==> count == Some(|old(monitored)[g]|)
      ensures g !in old(monitored) ==> count.None?
      ensures monitored == old(monitored) - {g}
    {
      if g in monitored {
        count := Some(|monitored[g]|);
        monitored := monitored - {g};
      } else {
        count := None;
      }
    }
  }
}
