/** Suggestions: numbered suggestions posted to a configured channel, per
    server settings, status updates and removal. */
module Suggestions {
  import opened Util

  datatype ChannelKind = TextChannel | ForumChannel | OtherChannel

  datatype Settings = Settings(
    channel: Option<ChannelId>,
    useThreads: bool,
    useForum: bool,
    anonymousAllowed: bool,
    autoReactions: bool)

  const DefaultSettings: Settings := Settings(None, false, false, true, true)

  datatype Suggestion = Suggestion(
    id: nat,
    authorId: UserId,
    authorName: string,
    content: string,
    anonymous: bool,
    timestamp: string,
    status: string,
    guildId: GuildId,
    threadId: Option<nat>,
    messageId: Option<nat>)

  /** How a suggestion is posted. */
  datatype Route = ForumPost | ThreadedMessage | PlainMessage

  datatype CreateOutcome = NotSetUp | ChannelMissing | ForumPostFailed(id: nat) | Submitted(id: nat, route: Route)

  datatype SetupOutcome = SetupHelp | InvalidChannel | Configured

  datatype DeleteOutcome = NotFound | NotAuthor | Deleted

  /** A channel counts as configured when it is set and not 0. */
  predicate ChannelSet(s: Settings)
  {
    s.channel.Some? && s.channel.value != 0
  }

  /** The prefix form of suggest: no text shows the help; a leading
      "-anon " makes the rest an anonymous suggestion. */
  function ParseSuggest(arg: string): (r: Option<(bool, string)>)
    ensures arg == [] <==> r.None?
    ensures r.Some? && r.value.0 ==> arg == "-anon " + r.value.1
    ensures r.Some? && !r.value.0 ==> r.value.1 == arg && !StartsWith(arg, "-anon ")
  {
    if arg == [] then None
    else if StartsWith(arg, "-anon ") then Some((true, arg[6..]))
    else Some((false, arg))
  }

  /** Any text behind the marker is posted anonymously, exactly as typed. */
  lemma ParseAnonymous(t: string)
    ensures ParseSuggest("-anon " + t) == Some((true, t))
  {
    assert ("-anon " + t)[..6] == "-anon ";
    assert ("-anon " + t)[6..] == t;
  }

  /** The route a new suggestion takes: a forum post only when forum mode is
      on and the channel is a forum, else a threaded message when threads are
      on, else a plain message. */
  function RouteFor(s: Settings, kind: ChannelKind): Route
  {
    if s.useForum && kind == ForumChannel then ForumPost
    else if s.useThreads then ThreadedMessage
    else PlainMessage
  }

  /** setup_suggestions: the channel, threads exactly for mode "threads",
      forum for mode "forum" or a forum channel. */
  function Configure(s: Settings, channel: ChannelId, kind: ChannelKind, mode: string): (r: Settings)
    ensures r.channel == Some(channel)
    ensures r.useThreads <==> Lower(mode) == "threads"
    ensures r.useForum <==> Lower(mode) == "forum" || kind == ForumChannel
    ensures r.anonymousAllowed == s.anonymousAllowed && r.autoReactions == s.autoReactions
  {
    s.(channel := Some(channel), useThreads := Lower(mode) == "threads",
       useForum := Lower(mode) == "forum" || kind == ForumChannel)
  }

  /** After setup, a forum channel gets forum posts whatever the mode; on a
      text channel mode "threads" gives threaded messages and every other
      mode, "forum" included, plain messages. */
  lemma SetupRoute(s: Settings, channel: ChannelId, kind: ChannelKind, mode: string)
    requires kind != OtherChannel
    ensures RouteFor(Configure(s, channel, kind, mode), kind) ==
      if kind == ForumChannel then ForumPost
      else if Lower(mode) == "threads" then ThreadedMessage
      else PlainMessage
  {
  }

  /** The stored record of a new suggestion, with what the post produced:
      a forum post keeps its thread and starter message, a threaded message
      its message and the thread if one was made, a plain message only the
      message; a failed forum post keeps neither. */
  function NewRecord(id: nat, guild: GuildId, author: UserId, authorName: string, content: string,
                     anonymous: bool, now: string, route: Route, thread: Option<nat>, message: nat): (r: Suggestion)
    ensures r.id == id && r.status == "pending" && r.guildId == guild && r.authorId == author
    ensures r.content == content && r.anonymous == anonymous
    ensures (route == ForumPost && thread.None?) <==> r.messageId.None?
    ensures r.threadId.Some? <==> route != PlainMessage && thread.Some?
    ensures r.threadId.Some? ==> r.threadId == thread
    ensures r.messageId.Some? ==> r.messageId == Some(message)
    ensures r.authorName == authorName && r.timestamp == now
  {
    var base := Suggestion(id, author, authorName, content, anonymous, now, "pending", guild, None, None);
    match route
    case ForumPost => if thread.Some? then base.(threadId := thread, messageId := Some(message)) else base
    case ThreadedMessage => base.(threadId := thread, messageId := Some(message))
    case PlainMessage => base.(messageId := Some(message))
  }

  /** get_next_id: one past the largest stored id, or 1 when there is none. */
  method NextIdOf(ids: set<nat>) returns (n: nat)
    ensures ids == {} ==> n == 1
    ensures ids != {} ==> n - 1 in ids
    ensures forall k | k in ids :: k < n
    ensures n >= 1
  {
    n := 1;
    var rest := ids;
    var seen: set<nat> := {};
    while rest != {}
      invariant rest + seen == ids && rest * seen == {}
      invariant forall k | k in seen :: k < n
      invariant n >= 1
      invariant seen == {} ==> n == 1
      invariant seen != {} ==> n - 1 in seen
      decreases rest
    {
      var k :| k in rest;
      if k + 1 > n {
        n := k + 1;
      }
      rest := rest - {k};
      seen := seen + {k};
    }
  }

  class SuggestionsCog {
    var suggestions: map<nat, Suggestion>
    var settings: map<GuildId, Settings>
    var nextId: nat

    /** Every stored id is below the next one handed out. */
    ghost predicate Valid()
      reads this
    {
      nextId >= 1 && forall k | k in suggestions :: k < nextId
    }

    /** Start from the saved suggestions and settings. */
    constructor (saved: map<nat, Suggestion>, savedSettings: map<GuildId, Settings>)
      ensures Valid()
      ensures suggestions == saved && settings == savedSettings
      ensures saved == map[] ==> nextId == 1
      ensures saved != map[] ==> nextId - 1 in saved
    {
      var n := NextIdOf(saved.Keys);
      suggestions := saved;
      settings := savedSettings;
      nextId := n;
    }

    /** get_server_settings: an unseen server is given the defaults. */
    method ServerSettings(g: GuildId) returns (s: Settings)
      modifies this
      ensures g in old(settings) ==> settings == old(settings)
      ensures g !in old(settings) ==> settings == old(settings)[g := DefaultSettings]
      ensures g in settings && s == settings[g]
      ensures suggestions == old(suggestions) && nextId == old(nextId)
    {
      if g !in settings {
        settings := settings[g := DefaultSettings];
      }
      s := settings[g];
    }

    /** create_suggestion. An id is taken only once the channel checks pass;
        the record is stored even when the forum post then fails. */
    method CreateSuggestion(g: GuildId, author: UserId, authorName: string, content: string, anonymous: bool,
                            now: string, channelKind: Option<ChannelKind>, thread: Option<nat>, message: nat)
      returns (outcome: CreateOutcome)
      requires Valid()
      modifies this
      ensures Valid()
      ensures var s := if g in old(settings) then old(settings)[g] else DefaultSettings;
        settings == old(settings)[g := s]
        && (!ChannelSet(s) ==> outcome == NotSetUp)
        && (ChannelSet(s) && channelKind.None? ==> outcome == ChannelMissing)
        && (outcome.NotSetUp? || outcome.ChannelMissing? ==>
              suggestions == old(suggestions) && nextId == old(nextId))
        && (ChannelSet(s) && channelKind.Some? ==>
              var route := RouteFor(s, channelKind.value);
              nextId == old(nextId) + 1
              && old(nextId) !in old(suggestions)
              && suggestions == old(suggestions)[old(nextId) :=
                   NewRecord(old(nextId), g, author, authorName, content, anonymous, now, route, thread, message)]
              && outcome == (if route == ForumPost && thread.None? then ForumPostFailed(old(nextId))
                             else Submitted(old(nextId), route)))
    {
      var s := ServerSettings(g);
      if !ChannelSet(s) {
        return NotSetUp;
      }
      if channelKind.None? {
        return ChannelMissing;
      }
      var id := nextId;
      nextId := nextId + 1;
      var route := RouteFor(s, channelKind.value);
      suggestions := suggestions[id := NewRecord(id, g, author, authorName, content, anonymous, now, route, thread, message)];
      if route == ForumPost && thread.None? {
        outcome := ForumPostFailed(id);
      } else {
        outcome := Submitted(id, route);
      }
    }

    /** setup_suggestions: no channel shows the help, a channel that is
        neither text nor forum is refused, otherwise the server's settings
        are configured. */
    method Setup(g: GuildId, channel: Option<(ChannelId, ChannelKind)>, mode: string) returns (outcome: SetupOutcome)
      modifies this
      ensures channel.None? ==> outcome == SetupHelp && settings == old(settings)
      ensures channel.Some? && channel.value.1 == OtherChannel ==> outcome == InvalidChannel && settings == old(settings)
      ensures channel.Some? && channel.value.1 != OtherChannel ==>
        var s := if g in old(settings) then old(settings)[g] else DefaultSettings;
        outcome == Configured && settings == old(settings)[g := Configure(s, channel.value.0, channel.value.1, mode)]
      ensures suggestions == old(suggestions) && nextId == old(nextId)
    {
      if channel.None? {
        return SetupHelp;
      }
      var (id, kind) := channel.value;
      if kind == OtherChannel {
        return InvalidChannel;
      }
      var s := ServerSettings(g);
      settings := settings[g := Configure(s, id, kind, mode)];
      outcome := Configured;
    }

    /** suggestion_status: store the lower-cased status of a known id. */
    method SetStatus(id: nat, status: string) returns (found: bool)
      requires Valid()
      modifies this
      ensures Valid()
      ensures found == (id in old(suggestions))
      ensures found ==> suggestions == old(suggestions)[id := old(suggestions)[id].(status := Lower(status))]
      ensures !found ==> suggestions == old(suggestions)
      ensures settings == old(settings) && nextId == old(nextId)
    {
      found := id in suggestions;
      if found {
        suggestions := suggestions[id := suggestions[id].(status := Lower(status))];
      }
    }

    /** remove_suggestion: a moderator removes any suggestion. */
    method RemoveSuggestion(id: nat) returns (found: bool)
      requires Valid()
      modifies this
      ensures Valid()
      ensures found == (id in old(suggestions))
      ensures suggestions == old(suggestions) - {id}
      ensures settings == old(settings) && nextId == old(nextId)
    {
      found := id in suggestions;
      suggestions := suggestions - {id};
    }

    /** delete_my_suggestion: only the author removes their suggestion. */
    method DeleteOwnSuggestion(id: nat, caller: UserId) returns (outcome: DeleteOutcome)
      requires Valid()
      modifies this
      ensures Valid()
      ensures outcome == (if id !in old(suggestions) then NotFound
                          else if old(suggestions)[id].authorId != caller then NotAuthor
                          else Deleted)
      ensures outcome == Deleted ==> suggestions == old(suggestions) - {id}
      ensures outcome != Deleted ==> suggestions == old(suggestions)
      ensures settings == old(settings) && nextId == old(nextId)
    {
      if id !in suggestions {
        return NotFound;
      }
      if suggestions[id].authorId != caller {
        return NotAuthor;
      }
      suggestions := suggestions - {id};
      outcome := Deleted;
    }
  }

  /** Ids handed out in one session are distinct and increasing: two
      successful submissions in a row get consecutive fresh ids. */
  method TwoSubmissions(c: SuggestionsCog, g: GuildId, kind: ChannelKind, a: UserId, m1: nat, m2: nat)
    returns (first: CreateOutcome, second: CreateOutcome)
    requires c.Valid()
    requires g in c.settings && ChannelSet(c.settings[g])
    modifies c
    ensures (first.Submitted? || first.ForumPostFailed?) && (second.Submitted? || second.ForumPostFailed?)
    ensures first.id == old(c.nextId) && second.id == first.id + 1
    ensures first.id !in old(c.suggestions) && second.id !in old(c.suggestions)
    ensures c.suggestions.Keys == old(c.suggestions).Keys + {first.id, second.id}
  {
    first := c.CreateSuggestion(g, a, "", "first", false, "", Some(kind), None, m1);
    second := c.CreateSuggestion(g, a, "", "second", false, "", Some(kind), None, m2);
  }
}
