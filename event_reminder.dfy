/** The Discord scheduled-event reminder cog: the per-guild configuration map updated in place by the
    settings commands, the periodic check that sends one-day and 30-minute reminders while keeping the
    set of events already given their one-day reminder, and the choice of channel and mention. */
module EventReminder {
  import opened Wrappers

  // ---------------------------------------------------------------- configuration

  /** A per-event override: the `channel` and `role` keys of its dict. */
  datatype EventSetting = EventSetting(channel: Option<nat>, role: Option<nat>)

  /** A guild's entry: default channel, default role and the per-event overrides by lower-cased name. */
  datatype GuildConfig = GuildConfig(notificationChannel: Option<nat>, mentionRole: Option<nat>, eventSettings: map<string, EventSetting>)

  const DefaultGuild := GuildConfig(None, None, map[])
  const NoSetting := EventSetting(None, None)

  /** The configuration, keyed by guild id (the source keys by `str(guild_id)`, a one-to-one map). */
  type Config = map<nat, GuildConfig>

  /** ASCII lower-casing, standing for `str.lower`. */
  function LowerChar(c: char): char {
    if 'A' <= c <= 'Z' then (c as int + 32) as char else c
  }

  function Lower(s: string): (r: string)
    ensures |r| == |s|
    ensures forall i :: 0 <= i < |s| ==> r[i] == LowerChar(s[i])
  {
    seq(|s|, i requires 0 <= i < |s| => LowerChar(s[i]))
  }

  lemma LowerIdempotent(s: string)
    ensures Lower(Lower(s)) == Lower(s)
  {
    forall i | 0 <= i < |s| ensures LowerChar(LowerChar(s[i])) == LowerChar(s[i]) {
    }
  }

  /** `get_guild_config`: the stored entry, or a fresh default that is not stored. */
  function GuildConfigOf(config: Config, guildId: nat): (g: GuildConfig)
    ensures guildId in config ==> g == config[guildId]
    ensures guildId !in config ==> g == DefaultGuild
  {
    if guildId in config then config[guildId] else DefaultGuild
  }

  /** `set_guild_config`. */
  function SetGuild(config: Config, guildId: nat, channelId: Option<nat>, roleId: Option<nat>): Config {
    var g := GuildConfigOf(config, guildId);
    var g1 := if channelId.Some? then g.(notificationChannel := channelId) else g;
    var g2 := if roleId.Some? then g1.(mentionRole := roleId) else g1;
    config[guildId := g2]
  }

  /** Setting a guild's defaults creates its entry if needed, overwrites only the given fields, keeps
      its event overrides, and leaves every other guild alone; setting the same values twice is the
      same as once. */
  lemma SetGuildEffect(config: Config, guildId: nat, channelId: Option<nat>, roleId: Option<nat>)
    ensures var c := SetGuild(config, guildId, channelId, roleId);
      c.Keys == config.Keys + {guildId} &&
      (forall other :: other in config && other != guildId ==> c[other] == config[other]) &&
      c[guildId].eventSettings == GuildConfigOf(config, guildId).eventSettings &&
      c[guildId].notificationChannel == (if channelId.Some? then channelId else GuildConfigOf(config, guildId).notificationChannel) &&
      c[guildId].mentionRole == (if roleId.Some? then roleId else GuildConfigOf(config, guildId).mentionRole)
    ensures SetGuild(SetGuild(config, guildId, channelId, roleId), guildId, channelId, roleId) == SetGuild(config, guildId, channelId, roleId)
  {
  }

  /** `set_event_config`: the override is keyed by the lower-cased event name. */
  function SetEvent(config: Config, guildId: nat, eventName: string, channelId: Option<nat>, roleId: Option<nat>): Config {
    var g := GuildConfigOf(config, guildId);
    var key := Lower(eventName);
    var e := if key in g.eventSettings then g.eventSettings[key] else NoSetting;
    var e1 := if channelId.Some? then e.(channel := channelId) else e;
    var e2 := if roleId.Some? then e1.(role := roleId) else e1;
    config[guildId := g.(eventSettings := g.eventSettings[key := e2])]
  }

  /** The override a reminder for an event of this name reads (`.get(event.name.lower(), {})`). */
  function EventSettingOf(config: Config, guildId: nat, eventName: string): EventSetting {
    var g := GuildConfigOf(config, guildId);
    if Lower(eventName) in g.eventSettings then g.eventSettings[Lower(eventName)] else NoSetting
  }

  /** An event override is found again under any capitalisation of its name, holds the given values,
      and touches neither the guild's defaults, nor other events' overrides, nor other guilds. */
  lemma SetEventEffect(config: Config, guildId: nat, eventName: string, lookupName: string, other: string, channelId: Option<nat>, roleId: Option<nat>)
    requires Lower(lookupName) == Lower(eventName)
    requires Lower(other) != Lower(eventName)
    ensures var c := SetEvent(config, guildId, eventName, channelId, roleId);
      var before := EventSettingOf(config, guildId, eventName);
      EventSettingOf(c, guildId, lookupName) ==
        EventSetting(if channelId.Some? then channelId else before.channel, if roleId.Some? then roleId else before.role) &&
      EventSettingOf(c, guildId, other) == EventSettingOf(config, guildId, other) &&
      c[guildId].notificationChannel == GuildConfigOf(config, guildId).notificationChannel &&
      c[guildId].mentionRole == GuildConfigOf(config, guildId).mentionRole &&
      (forall g :: g in config && g != guildId ==> c[g] == config[g])
  {
  }

  // ---------------------------------------------------------------- guilds and reminders

  datatype EventStatus = Scheduled | Active | Completed | Cancelled

  /** A scheduled event; `timeUntil` is its start minus the check's time, in microseconds (the
      resolution of `timedelta`). */
  datatype Event = Event(id: nat, name: string, status: EventStatus, timeUntil: int)

  /** The bot's permissions in a channel. */
  datatype Perms = Perms(sendMessages: bool, mentionEveryone: bool)

  /** A guild as the cog sees it: its channels with the bot's permissions, its system channel, its text
      channels in order, and its roles. */
  datatype Guild = Guild(id: nat, channels: map<nat, Perms>, systemChannel: Option<nat>, textChannels: seq<nat>, roles: set<nat>)

  function PermsOf(g: Guild, channel: nat): Perms {
    if channel in g.channels then g.channels[channel] else Perms(false, false)
  }

  /** Python truthiness of an optional id: `None` and 0 are false. */
  predicate IsSet(id: Option<nat>) {
    id.Some? && id.value != 0
  }

  /** Python's `a or b` on optional ids. */
  function OrElse(a: Option<nat>, b: Option<nat>): Option<nat> {
    if IsSet(a) then a else b
  }

  /** The first text channel the bot may send to. */
  function FirstSendable(g: Guild, chans: seq<nat>): (r: Option<nat>)
    ensures r.Some? ==> r.value in chans && PermsOf(g, r.value).sendMessages
    ensures r.Some? ==> exists k :: 0 <= k < |chans| && chans[k] == r.value && forall m :: 0 <= m < k ==> !PermsOf(g, chans[m]).sendMessages
    ensures r.None? ==> forall c :: c in chans ==> !PermsOf(g, c).sendMessages
  {
    if |chans| == 0 then None
    else if PermsOf(g, chans[0]).sendMessages then Some(chans[0])
    else
      var r := FirstSendable(g, chans[1..]);
      if r.Some? then
        var k :| 0 <= k < |chans[1..]| && chans[1..][k] == r.value && forall m :: 0 <= m < k ==> !PermsOf(g, chans[1..][m]).sendMessages;
        assert chans[k + 1] == r.value;
        assert forall m :: 1 <= m < k + 1 ==> chans[m] == chans[1..][m - 1];
        r
      else r
  }

  /** The channel a reminder goes to: the event's channel, else the guild's default (looked up, and
      nothing if it no longer exists), else the system channel, else the first sendable text channel. */
  function ReminderChannel(config: Config, g: Guild, eventName: string): Option<nat> {
    var id := OrElse(EventSettingOf(config, g.id, eventName).channel, GuildConfigOf(config, g.id).notificationChannel);
    if IsSet(id) then (if id.value in g.channels then id else None)
    else if g.systemChannel.Some? then g.systemChannel
    else FirstSendable(g, g.textChannels)
  }

  lemma ChannelPriority(config: Config, g: Guild, eventName: string)
    ensures var ev := EventSettingOf(config, g.id, eventName).channel;
      var dflt := GuildConfigOf(config, g.id).notificationChannel;
      var r := ReminderChannel(config, g, eventName);
      (IsSet(ev) ==> r == (if ev.value in g.channels then ev else None)) &&
      (!IsSet(ev) && IsSet(dflt) ==> r == (if dflt.value in g.channels then dflt else None)) &&
      (!IsSet(ev) && !IsSet(dflt) && g.systemChannel.Some? ==> r == g.systemChannel) &&
      (!IsSet(ev) && !IsSet(dflt) && g.systemChannel.None? ==> r == FirstSendable(g, g.textChannels))
  {
  }

  /** The mention line: a configured role that exists (with the one-day wording for a one-day alarm),
      else `@everyone` where the bot may use it, else none; the last two always say "starting soon". */
  datatype Mention = RoleMention(role: nat, oneDay: bool) | Everyone | Plain

  function ReminderMention(config: Config, g: Guild, eventName: string, channel: nat, oneDay: bool): Mention {
    var id := OrElse(EventSettingOf(config, g.id, eventName).role, GuildConfigOf(config, g.id).mentionRole);
    if IsSet(id) && id.value in g.roles then RoleMention(id.value, oneDay)
    else if PermsOf(g, channel).mentionEveryone then Everyone
    else Plain
  }

  /** The mention follows the role priority: the event's role if set, else the guild's default role;
      that role is mentioned when it exists (an event role that no longer exists does not fall back to
      the default role), else `@everyone` when the bot may use it in that channel, else nothing. */
  lemma MentionPriority(config: Config, g: Guild, eventName: string, channel: nat, oneDay: bool)
    ensures var ev := EventSettingOf(config, g.id, eventName).role;
      var dflt := GuildConfigOf(config, g.id).mentionRole;
      var id := if IsSet(ev) then ev else dflt;
      var m := ReminderMention(config, g, eventName, channel, oneDay);
      (m.RoleMention? <==> IsSet(id) && id.value in g.roles) &&
      (m.RoleMention? ==> m.role == id.value && m.oneDay == oneDay) &&
      (m == Everyone <==> !(IsSet(id) && id.value in g.roles) && PermsOf(g, channel).mentionEveryone) &&
      (m == Plain <==> !(IsSet(id) && id.value in g.roles) && !PermsOf(g, channel).mentionEveryone) &&
      (IsSet(ev) && ev.value !in g.roles ==> !m.RoleMention?)
  {
  }

  const MicrosPerMinute: int := 60_000_000
  const HalfHour: int := 30 * MicrosPerMinute
  const Day: int := 24 * 60 * MicrosPerMinute

  /** A sent reminder; `minutes` is the whole minutes remaining. */
  datatype Reminder = Reminder(guildId: nat, eventId: nat, oneDay: bool, channel: nat, mention: Mention, minutes: int)

  /** `int(total_seconds() / 60)`: whole minutes, truncated toward zero. */
  function WholeMinutes(t: int): (m: int)
    ensures t >= 0 ==> 0 <= m && m * MicrosPerMinute <= t < (m + 1) * MicrosPerMinute
    ensures t < 0 ==> m <= 0 && (m - 1) * MicrosPerMinute < t <= m * MicrosPerMinute
  {
    if t >= 0 then t / MicrosPerMinute else -((-t) / MicrosPerMinute)
  }

  /** `send_event_reminder`: one message, or none when no channel is found. */
  function Send(config: Config, g: Guild, e: Event, oneDay: bool): (sent: seq<Reminder>)
    ensures |sent| <= 1
    ensures |sent| == 1 <==> ReminderChannel(config, g, e.name).Some?
    ensures forall r :: r in sent ==> r.eventId == e.id && r.oneDay == oneDay && r.guildId == g.id
    ensures forall r :: r in sent ==>
      ReminderChannel(config, g, e.name) == Some(r.channel) &&
      r.mention == ReminderMention(config, g, e.name, r.channel, oneDay) &&
      r.minutes == WholeMinutes(e.timeUntil)
  {
    var ch := ReminderChannel(config, g, e.name);
    if ch.None? then []
    else [Reminder(g.id, e.id, oneDay, ch.value, ReminderMention(config, g, e.name, ch.value, oneDay), WholeMinutes(e.timeUntil))]
  }

  // ---------------------------------------------------------------- the periodic check

  /** One event in `check_scheduled_events`: the one-day reminder once per stay in the set, the
      30-minute reminder on every check, and removal from the set only once the start has passed (the
      `elif` belongs to the 30-minute test, so an event starting now is not removed). */
  function CheckEvent(config: Config, g: Guild, notified: set<nat>, e: Event): (set<nat>, seq<Reminder>) {
    if e.status != Scheduled then (notified, [])
    else
      var t := e.timeUntil;
      var firstDay := 0 <= t <= Day && e.id !in notified;
      var n1 := if firstDay then notified + {e.id} else notified;
      var s1 := if firstDay then Send(config, g, e, true) else [];
      if 0 <= t <= HalfHour then (n1, s1 + Send(config, g, e, false))
      else if t <= 0 then (n1 - {e.id}, s1)
      else (n1, s1)
  }

  /** The set changes only at the event's own id: it is added within a day of the start, and removed
      only after the start has passed. */
  lemma CheckEventNotified(config: Config, g: Guild, notified: set<nat>, e: Event)
    ensures var n := CheckEvent(config, g, notified, e).0;
      (n == notified) ||
      (n == notified + {e.id} && e.status == Scheduled && 0 <= e.timeUntil <= Day) ||
      (n == notified - {e.id} && e.status == Scheduled && e.timeUntil < 0)
    ensures e.status == Scheduled && 0 <= e.timeUntil <= Day ==> e.id in CheckEvent(config, g, notified, e).0
    ensures e.status != Scheduled ==> CheckEvent(config, g, notified, e) == (notified, [])
  {
  }

  /** The reminders one event receives in one check. */
  lemma CheckEventReminders(config: Config, g: Guild, notified: set<nat>, e: Event)
    requires e.status == Scheduled
    ensures var sent := CheckEvent(config, g, notified, e).1;
      var reach := ReminderChannel(config, g, e.name).Some?;
      (forall r :: r in sent ==> r.eventId == e.id) &&
      (e.id in notified ==> forall r :: r in sent ==> !r.oneDay) &&
      ((exists r :: r in sent && r.oneDay) <==> e.id !in notified && 0 <= e.timeUntil <= Day && reach) &&
      ((exists r :: r in sent && !r.oneDay) <==> 0 <= e.timeUntil <= HalfHour && reach) &&
      |sent| <= 2
  {
    var t := e.timeUntil;
    var firstDay := 0 <= t <= Day && e.id !in notified;
    var s1 := if firstDay then Send(config, g, e, true) else [];
    var s2 := if 0 <= t <= HalfHour then Send(config, g, e, false) else [];
    assert CheckEvent(config, g, notified, e).1 == s1 + s2;
    assert forall r :: r in s1 + s2 <==> r in s1 || r in s2;
  }

  /** An event starting right now still gets its reminder and stays in the set. */
  lemma StartingNow(config: Config, g: Guild, notified: set<nat>, e: Event)
    requires e.status == Scheduled && e.timeUntil == 0 && ReminderChannel(config, g, e.name).Some?
    ensures e.id in CheckEvent(config, g, notified, e).0
    ensures exists r :: r in CheckEvent(config, g, notified, e).1 && !r.oneDay
  {
    CheckEventReminders(config, g, notified, e);
  }

  /** The events of one guild, in order, up to the n-th. */
  function CheckEventsUpTo(config: Config, g: Guild, notified: set<nat>, events: seq<Event>, n: nat): (set<nat>, seq<Reminder>)
    requires n <= |events|
  {
    if n == 0 then (notified, [])
    else
      var before := CheckEventsUpTo(config, g, notified, events, n - 1);
      var step := CheckEvent(config, g, before.0, events[n - 1]);
      (step.0, before.1 + step.1)
  }

  /** A guild and what `fetch_scheduled_events` gave for it (`None`: it raised, and the guild is skipped). */
  datatype GuildEvents = GuildEvents(guild: Guild, events: Option<seq<Event>>)

  function CheckGuildsUpTo(config: Config, notified: set<nat>, guilds: seq<GuildEvents>, m: nat): (set<nat>, seq<Reminder>)
    requires m <= |guilds|
  {
    if m == 0 then (notified, [])
    else
      var before := CheckGuildsUpTo(config, notified, guilds, m - 1);
      var ge := guilds[m - 1];
      if ge.events.None? then before
      else
        var step := CheckEventsUpTo(config, ge.guild, before.0, ge.events.value, |ge.events.value|);
        (step.0, before.1 + step.1)
  }

  /** An event has passed in this check when a fetched guild lists it, scheduled, with a negative time. */
  predicate PassedIn(events: seq<Event>, id: nat) {
    exists k :: 0 <= k < |events| && events[k].id == id && events[k].status == Scheduled && events[k].timeUntil < 0
  }

  predicate PassedInAny(guilds: seq<GuildEvents>, id: nat) {
    exists k :: 0 <= k < |guilds| && guilds[k].events.Some? && PassedIn(guilds[k].events.value, id)
  }

  lemma {:induction false} EventsKeepUnlessPassed(config: Config, g: Guild, notified: set<nat>, events: seq<Event>, n: nat, id: nat)
    requires n <= |events| && id in notified && !PassedIn(events[..n], id)
    ensures id in CheckEventsUpTo(config, g, notified, events, n).0
  {
    if n > 0 {
      assert events[..n - 1] == events[..n][..n - 1];
      EventsKeepUnlessPassed(config, g, notified, events, n - 1, id);
      var before := CheckEventsUpTo(config, g, notified, events, n - 1);
      CheckEventNotified(config, g, before.0, events[n - 1]);
      assert events[..n][n - 1] == events[n - 1];
    }
  }

  /** An id leaves the notified set during a check only if some fetched guild lists that event as
      scheduled and already started. */
  lemma {:induction false} CheckKeepsUnlessPassed(config: Config, notified: set<nat>, guilds: seq<GuildEvents>, m: nat, id: nat)
    requires m <= |guilds| && id in notified && !PassedInAny(guilds[..m], id)
    ensures id in CheckGuildsUpTo(config, notified, guilds, m).0
  {
    if m > 0 {
      assert guilds[..m - 1] == guilds[..m][..m - 1];
      CheckKeepsUnlessPassed(config, notified, guilds, m - 1, id);
      var ge := guilds[m - 1];
      assert guilds[..m][m - 1] == ge;
      if ge.events.Some? {
        var evs := ge.events.value;
        assert evs[..|evs|] == evs;
        EventsKeepUnlessPassed(config, ge.guild, CheckGuildsUpTo(config, notified, guilds, m - 1).0, evs, |evs|, id);
      }
    }
  }

  /** The loops of `check_scheduled_events` on the set they update. */
  method RunCheck(config: Config, notified0: set<nat>, guilds: seq<GuildEvents>) returns (notified: set<nat>, sent: seq<Reminder>)
    ensures (notified, sent) == CheckGuildsUpTo(config, notified0, guilds, |guilds|)
  {
    notified, sent := notified0, [];
    for m := 0 to |guilds|
      invariant (notified, sent) == CheckGuildsUpTo(config, notified0, guilds, m)
    {
      var ge := guilds[m];
      if ge.events.Some? {
        var events := ge.events.value;
        ghost var guildStart := notified;
        var guildSent := [];
        for n := 0 to |events|
          invariant (notified, guildSent) == CheckEventsUpTo(config, ge.guild, guildStart, events, n)
        {
          var step := CheckEvent(config, ge.guild, notified, events[n]);
          notified := step.0;
          guildSent := guildSent + step.1;
        }
        sent := sent + guildSent;
      }
    }
  }

  // ---------------------------------------------------------------- the cog

  /** The cog's mutable state: the configuration map and the one-day notified set. */
  class ReminderCog {
    var config: Config
    var notified: set<nat>

    /** The configuration starts as the loaded file's contents and the set empty. */
    constructor (loaded: Config)
      ensures config == loaded && notified == {}
    {
      config := loaded;
      notified := {};
    }

    method GetGuildConfig(guildId: nat) returns (g: GuildConfig)
      ensures guildId in config ==> g == config[guildId]
      ensures guildId !in config ==> g == DefaultGuild
    {
      if guildId in config {
        g := config[guildId];
      } else {
        g := DefaultGuild;
      }
    }

    method SetGuildConfig(guildId: nat, channelId: Option<nat>, roleId: Option<nat>)
      modifies this
      ensures config == SetGuild(old(config), guildId, channelId, roleId)
      ensures notified == old(notified)
    {
      if guildId !in config {
        config := config[guildId := DefaultGuild];
      }
      if channelId.Some? {
        config := config[guildId := config[guildId].(notificationChannel := channelId)];
      }
      if roleId.Some? {
        config := config[guildId := config[guildId].(mentionRole := roleId)];
      }
    }

    method SetEventConfig(guildId: nat, eventName: string, channelId: Option<nat>, roleId: Option<nat>)
      modifies this
      ensures config == SetEvent(old(config), guildId, eventName, channelId, roleId)
      ensures notified == old(notified)
    {
      if guildId !in config {
        config := config[guildId := DefaultGuild];
      }
      var key := Lower(eventName);
      var settings := config[guildId].eventSettings;
      if key !in settings {
        settings := settings[key := NoSetting];
      }
      var e := settings[key];
      if channelId.Some? {
        e := e.(channel := channelId);
      }
      if roleId.Some? {
        e := e.(role := roleId);
      }
      assert settings[key := e] == config[guildId].eventSettings[key := e];
      config := config[guildId := config[guildId].(eventSettings := settings[key := e])];
    }

    /** `clear_event_settings`: drops the guild's entry; `hadSettings` picks the reply. */
    method ClearEventSettings(guildId: nat) returns (hadSettings: bool)
      modifies this
      ensures hadSettings == (guildId in old(config))
      ensures config == old(config) - {guildId}
      ensures notified == old(notified)
    {
      hadSettings := guildId in config;
      if hadSettings {
        config := config - {guildId};
      }
    }

    /** `check_scheduled_events`: every guild, every event, in order. */
    method CheckScheduledEvents(guilds: seq<GuildEvents>) returns (sent: seq<Reminder>)
      modifies this
      ensures (notified, sent) == CheckGuildsUpTo(config, old(notified), guilds, |guilds|)
      ensures config == old(config)
    {
      notified, sent := RunCheck(config, notified, guilds);
    }
  }
}
