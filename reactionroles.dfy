/** Reaction roles: a member who reacts to a registered message with a
    registered emoji gets the bound role, and loses it when the reaction
    is taken away. The bindings are kept per message, then per emoji key. */
module ReactionRoles {
  import opened Util
  import opened Decimal

  type MessageId = nat

  /** An emoji as a reaction event carries it: a Unicode emoji has no id and
      its character as its name; a custom emoji has its id. */
  datatype PartialEmoji = PartialEmoji(id: Option<nat>, name: string)

  /** What a binding stores. */
  datatype Binding = Binding(roleId: RoleId, guildId: GuildId, channelId: ChannelId)

  type Bindings = map<MessageId, map<string, Binding>>

  /** get_emoji_name on an emoji object: the id's decimal text when there is
      a (non-zero) id, the name otherwise. */
  function EventKey(e: PartialEmoji): (k: string)
    ensures e.id.Some? && e.id.value != 0 ==> k == Show(e.id.value) && IsDigitString(k)
    ensures e.id.None? ==> k == e.name
  {
    if e.id.Some? && e.id.value != 0 then Show(e.id.value) else e.name
  }

  // ---------------------------------------------------------------------
  // The key the commands store under

  /** How a custom emoji is written in a message: <:name:id>, or <a:name:id>
      when animated. */
  function CustomText(animated: bool, name: string, id: nat): string
  {
    (if animated then "<a:" else "<:") + name + ":" + Show(id) + ">"
  }

  /** get_emoji_name on the command's emoji argument, as written: the
      argument is text, so it is its own key. */
  function CommandKeyAsWritten(arg: string): (k: string)
    ensures k == arg
  {
    arg
  }

  /** As written, a custom emoji is added under its text, but its reactions
      look up the decimal id: the binding can never be found. */
  lemma CustomEmojiNeverMatchesAsWritten(animated: bool, name: string, id: nat)
    requires id > 0
    ensures CommandKeyAsWritten(CustomText(animated, name, id)) != EventKey(PartialEmoji(Some(id), name))
  {
    var t := CustomText(animated, name, id);
    assert t[0] == '<';
    assert IsAsciiDigit(Show(id)[0]);
  }

  /** The text after the last colon. */
  function AfterLastColon(s: string): (t: string)
    ensures |t| <= |s| && forall i :: 0 <= i < |t| ==> t[i] != ':'
  {
    if s == [] || s[|s| - 1] == ':' then [] else AfterLastColon(s[..|s| - 1]) + [s[|s| - 1]]
  }

  lemma {:induction false} AfterLastColonOf(p: string, d: string)
    requires forall i :: 0 <= i < |d| ==> d[i] != ':'
    ensures AfterLastColon(p + ":" + d) == d
    decreases |d|
  {
    var s := p + ":" + d;
    if d != [] {
      var d' := d[..|d| - 1];
      assert s[..|s| - 1] == p + ":" + d';
      AfterLastColonOf(p, d');
      assert d' + [d[|d| - 1]] == d;
    } else {
      assert s[|s| - 1] == ':';
    }
  }

  /** The id of a custom emoji written as <:name:id> or <a:name:id>. */
  function ParseCustom(arg: string): Option<nat>
  {
    if (StartsWith(arg, "<:") || StartsWith(arg, "<a:")) && arg[|arg| - 1] == '>' then
      var d := AfterLastColon(arg[..|arg| - 1]);
      if IsDigitString(d) then Some(DigitsValue(d)) else None
    else None
  }

  /** The key a command argument should be stored under: a custom emoji's
      id, as its reactions report it, and any other text as it is. */
  function CommandKey(arg: string): string
  {
    match ParseCustom(arg)
    case Some(id) => Show(id)
    case None => arg
  }

  /** Any text of the custom-emoji shape parses to the value of its digits. */
  lemma ParseCustomShape(prefix: string, name: string, d: string)
    requires prefix == "<:" || prefix == "<a:"
    requires IsDigitString(d)
    ensures ParseCustom(prefix + name + ":" + d + ">") == Some(DigitsValue(d))
  {
    var body := prefix + name + ":" + d;
    var t := body + ">";
    assert t[..|t| - 1] == body;
    assert t[..|prefix|] == prefix;
    assert StartsWith(t, prefix);
    forall i | 0 <= i < |d|
      ensures d[i] != ':'
    {
      assert IsAsciiDigit(d[i]);
    }
    AfterLastColonOf(prefix + name, d);
  }

  /** A custom emoji's text parses back to its id. */
  lemma ParseCustomText(animated: bool, name: string, id: nat)
    ensures ParseCustom(CustomText(animated, name, id)) == Some(id)
  {
    ParseCustomShape(if animated then "<a:" else "<:", name, NatText(id));
    DigitsValueOfNatText(id);
  }

  /** With the corrected key a custom emoji's binding is found by its
      reactions, and so is a Unicode emoji's. */
  lemma CommandKeyMatchesEvents(animated: bool, name: string, id: nat, unicode: string)
    requires id > 0
    requires unicode != [] && unicode[0] != '<'
    ensures CommandKey(CustomText(animated, name, id)) == EventKey(PartialEmoji(Some(id), name))
    ensures CommandKey(unicode) == EventKey(PartialEmoji(None, unicode))
  {
    ParseCustomText(animated, name, id);
    assert !StartsWith(unicode, "<:") && !StartsWith(unicode, "<a:") by {
      if |unicode| >= 2 {
        assert unicode[..2][0] == unicode[0];
      }
    }
  }

  // ---------------------------------------------------------------------
  // The bindings

  function Inner(roles: Bindings, m: MessageId): map<string, Binding>
  {
    if m in roles then roles[m] else map[]
  }

  /** No message is kept without bindings. */
  ghost predicate NoEmptyMessages(roles: Bindings)
  {
    forall m | m in roles :: roles[m] != map[]
  }

  function AddBinding(roles: Bindings, m: MessageId, key: string, b: Binding): Bindings
  {
    roles[m := Inner(roles, m)[key := b]]
  }

  predicate Bound(roles: Bindings, m: MessageId, key: string)
  {
    m in roles && key in roles[m]
  }

  function RemoveBinding(roles: Bindings, m: MessageId, key: string): Bindings
  {
    if !Bound(roles, m, key) then roles
    else if roles[m] - {key} == map[] then roles - {m}
    else roles[m := roles[m] - {key}]
  }

  /** add overwrites exactly that pair: every other pair keeps its binding. */
  lemma AddBindingEffect(roles: Bindings, m: MessageId, key: string, b: Binding)
    ensures var r := AddBinding(roles, m, key, b);
      Bound(r, m, key) && r[m][key] == b
      && (forall m': MessageId, k': string | (m', k') != (m, key) :: Bound(r, m', k') == Bound(roles, m', k'))
      && (forall m': MessageId, k': string | (m', k') != (m, key) && Bound(roles, m', k') :: r[m'][k'] == roles[m'][k'])
      && (NoEmptyMessages(roles) ==> NoEmptyMessages(r))
  {
  }

  /** remove deletes exactly that pair, dropping the message once it has
      no bindings left; an absent pair changes nothing. */
  lemma RemoveBindingEffect(roles: Bindings, m: MessageId, key: string)
    ensures var r := RemoveBinding(roles, m, key);
      !Bound(r, m, key)
      && (forall m': MessageId, k': string | (m', k') != (m, key) :: Bound(r, m', k') == Bound(roles, m', k'))
      && (forall m': MessageId, k': string | (m', k') != (m, key) && Bound(roles, m', k') :: r[m'][k'] == roles[m'][k'])
      && (!Bound(roles, m, key) ==> r == roles)
      && (NoEmptyMessages(roles) ==> NoEmptyMessages(r))
  {
    if Bound(roles, m, key) && roles[m] - {key} == map[] {
      forall k': string | k' != key
        ensures !Bound(roles, m, k')
      {
        assert k' !in roles[m] - {key};
      }
    }
  }

  /** Removing a pair that was just added to a message without it gives back
      the bindings there were before. */
  lemma RemoveUndoesAdd(roles: Bindings, m: MessageId, key: string, b: Binding)
    requires NoEmptyMessages(roles) && !Bound(roles, m, key)
    ensures RemoveBinding(AddBinding(roles, m, key, b), m, key) == roles
  {
    var r := AddBinding(roles, m, key, b);
    if m in roles {
      assert r[m] - {key} == roles[m];
    } else {
      assert r[m] - {key} == map[];
      assert r - {m} == roles;
    }
  }

  /** clear deletes every binding of the message and nothing else. */
  lemma ClearEffect(roles: Bindings, m: MessageId)
    ensures var r := roles - {m};
      (forall k': string :: !Bound(r, m, k'))
      && (forall m': MessageId, k': string | m' != m :: Bound(r, m', k') == Bound(roles, m', k'))
      && (forall m': MessageId, k': string | m' != m && Bound(roles, m', k') :: r[m'][k'] == roles[m'][k'])
      && (NoEmptyMessages(roles) ==> NoEmptyMessages(r))
  {
  }

  /** The role a reaction event concerns: none for the bot's own reactions,
      for pairs without a binding, and for a binding of another guild. */
  function ReactionRole(roles: Bindings, m: MessageId, e: PartialEmoji, user: UserId, botUser: UserId, guild: Option<GuildId>): (r: Option<RoleId>)
    ensures r.Some? <==>
      user != botUser && Bound(roles, m, EventKey(e)) && guild == Some(roles[m][EventKey(e)].guildId)
    ensures r.Some? ==> r.value == roles[m][EventKey(e)].roleId
  {
    if user == botUser then None
    else
      var key := EventKey(e);
      if !Bound(roles, m, key) then None
      else if Some(roles[m][key].guildId) != guild then None
      else Some(roles[m][key].roleId)
  }

  /** list's selection: the bindings of the invoking guild, by message. */
  function GuildBindings(roles: Bindings, g: GuildId): (r: Bindings)
    ensures forall m: MessageId, k: string :: Bound(r, m, k) <==> Bound(roles, m, k) && roles[m][k].guildId == g
    ensures forall m: MessageId, k: string | Bound(r, m, k) :: Bound(roles, m, k) && r[m][k] == roles[m][k]
    ensures NoEmptyMessages(r)
  {
    var r := map m | m in roles && (exists k :: k in roles[m] && roles[m][k].guildId == g) ::
      map k | k in roles[m] && roles[m][k].guildId == g :: roles[m][k];
    assert forall m | m in r :: exists k :: k in r[m] by {
      forall m | m in r ensures exists k :: k in r[m] {
        var k :| k in roles[m] && roles[m][k].guildId == g;
        assert k in r[m];
      }
    }
    r
  }

  // ---------------------------------------------------------------------
  // The cog

  datatype AddResult = MessageNotFound | RoleTooHigh | ReactionFailed | Added

  class ReactionRoleCog {
    var roles: Bindings

    constructor ()
      ensures roles == map[]
    {
      roles := map[];
    }

    /** add_reaction_role: the checks in order (the message exists, the role
        is below the bot's top role, the bot's reaction succeeded), then the
        pair is bound. */
    method Add(m: MessageId, arg: string, b: Binding, messageFound: bool, roleBelowBot: bool, reacted: bool)
      returns (result: AddResult)
      modifies this
      ensures result == (if !messageFound then MessageNotFound
                         else if !roleBelowBot then RoleTooHigh
                         else if !reacted then ReactionFailed
                         else Added)
      ensures result == Added ==> roles == AddBinding(old(roles), m, CommandKey(arg), b)
      ensures result != Added ==> roles == old(roles)
    {
      if !messageFound {
        return MessageNotFound;
      }
      if !roleBelowBot {
        return RoleTooHigh;
      }
      if !reacted {
        return ReactionFailed;
      }
      var key := CommandKey(arg);
      if m !in roles {
        roles := roles[m := map[]];
      }
      roles := roles[m := roles[m][key := b]];
      result := Added;
    }

    /** remove: refused for a pair without a binding. */
    method Remove(m: MessageId, arg: string) returns (ok: bool)
      modifies this
      ensures ok == Bound(old(roles), m, CommandKey(arg))
      ensures roles == RemoveBinding(old(roles), m, CommandKey(arg))
    {
      var key := CommandKey(arg);
      if m !in roles || key !in roles[m] {
        return false;
      }
      roles := roles[m := roles[m] - {key}];
      if roles[m] == map[] {
        roles := roles - {m};
      }
      ok := true;
    }

    /** clear: refused for a message without bindings. */
    method Clear(m: MessageId) returns (ok: bool)
      modifies this
      ensures ok == (m in old(roles))
      ensures roles == old(roles) - {m}
    {
      ok := m in roles;
      if ok {
        roles := roles - {m};
      }
    }

    /** on_raw_reaction_add and on_raw_reaction_remove: the role the event
        hands out or takes back. */
    function OnReaction(m: MessageId, e: PartialEmoji, user: UserId, botUser: UserId, guild: Option<GuildId>): (r: Option<RoleId>)
      reads this
      ensures r == ReactionRole(roles, m, e, user, botUser, guild)
    {
      ReactionRole(roles, m, e, user, botUser, guild)
    }
  }
}
