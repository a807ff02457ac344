/** The CustomCooldown plugin (customcooldown/customcooldown.py): a message
    gate that lets a user post in a registered channel, or in a channel of a
    registered category, at most once per cooldown window, and deletes the
    messages sent too early.

    One guild's stored configuration is the value `Registry`; the host's
    configuration store hands out copies and takes whole values back, so
    the cog holds it in a field that its methods reassign. `dmed`, the list
    of guild owners already warned that a deletion failed, lives in the cog
    itself. The clock reading `round(datetime.now().timestamp())` is the
    parameter `now`; whether the bot may delete the message is
    `canDelete`. */
module CustomCooldown {
  import opened Wrappers

  type UserId = nat
  type RoleId = nat
  type ChannelId = nat

  /** A registered channel: its cooldown in seconds and, per user, the time
      of the last message that was let through. The time is optional
      because `editchannel` stores the `None` of an unparseable time. */
  datatype ChannelEntry = ChannelEntry(cooldownTime: Option<nat>, usersOnCooldown: map<UserId, int>)

  /** A registered category: as a channel, plus the ids of the channels it
      held when it was added, edited or updated. */
  datatype CategoryEntry = CategoryEntry(cooldownTime: nat, usersOnCooldown: map<UserId, int>, channels: seq<ChannelId>)

  /** One guild's stored settings. Category entries are keyed by category
      id, and, after a refresh in a category gate, also by channel id. */
  datatype Registry = Registry(
    cooldownChannels: map<ChannelId, ChannelEntry>,
    cooldownCategories: map<ChannelId, CategoryEntry>,
    sendDm: bool,
    ignoreBot: bool,
    ignoreRoles: seq<RoleId>,
    ignoreUsers: seq<UserId>)

  /** The registered defaults (customcooldown.py:53-62). */
  const Defaults: Registry := Registry(map[], map[], false, true, [], [])

  /** What the gate sees of an incoming message. `category` is the
      channel's current parent; `owner` is the guild owner. */
  datatype Message = Message(
    inGuild: bool,
    author: UserId,
    authorIsBot: bool,
    authorRoles: seq<RoleId>,
    channel: ChannelId,
    category: Option<ChannelId>,
    owner: UserId)

  /** What the gate does outside the configuration store. */
  datatype Effect =
    | DeleteAttempt(succeeded: bool)              // `message.delete()`
    | AuthorWarned(user: UserId, remaining: int)  // cooldown DM to the author
    | OwnerWarned(owner: UserId)                  // `_dm_owner` sends its notice

  /** How one gate judges the author's stored timestamp. */
  datatype Verdict =
    | FirstMessage            // no timestamp yet
    | TooSoon(elapsed: int)   // `now - last <= cooldown_time`
    | CooledDown              // `now - last > cooldown_time`
    | TimeMissing             // the stored time is None: `<=` raises

  function Judge(users: map<UserId, int>, time: Option<nat>, user: UserId, now: int): Verdict {
    if user !in users then FirstMessage
    else if time.None? then TimeMissing
    else if now - users[user] <= time.value then TooSoon(now - users[user])
    else CooledDown
  }

  /** The state threaded through one `on_message`: the stored settings, the
      warned owners, whether the message is already deleted, the effects so
      far and whether an exception escaped. */
  datatype Run = Run(config: Registry, dmed: seq<UserId>, gone: bool, effects: seq<Effect>, raised: bool)

  /** `_dm_owner` (customcooldown.py:830-841): an owner not yet in `dmed` is
      sent the notice (best effort) and added to `dmed`. */
  function NotifyOwner(dmed: seq<UserId>, owner: UserId): (r: (seq<UserId>, seq<Effect>))
    ensures owner in dmed ==> r == (dmed, [])
    ensures owner !in dmed ==> r == (dmed + [owner], [OwnerWarned(owner)])
  {
    if owner in dmed then (dmed, []) else (dmed + [owner], [OwnerWarned(owner)])
  }

  /** The too-soon branch shared by both gates (customcooldown.py:94-113,
      120-121 and 139-158, 165-166): try to delete, DM the author when the
      guild asks for it and the author is not a bot, and warn the owner
      when the deletion failed. A message already deleted by the channel
      gate cannot be deleted again (`NotFound`). */
  function Block(run: Run, m: Message, sendDm: bool, remaining: int, canDelete: bool): Run {
    var deleted := canDelete && !run.gone;
    var warn := if sendDm && !m.authorIsBot then [AuthorWarned(m.author, remaining)] else [];
    if deleted then
      run.(gone := true, effects := run.effects + ([DeleteAttempt(true)] + warn))
    else
      var notice := NotifyOwner(run.dmed, m.owner);
      run.(dmed := notice.0, effects := run.effects + ([DeleteAttempt(false)] + warn + notice.1))
  }

  /** `_handle_channel_cooldown` (customcooldown.py:77-121) on the copy
      `chans` that `on_message` read. */
  function ChannelGate(run: Run, chans: map<ChannelId, ChannelEntry>, m: Message, sendDm: bool, now: int, canDelete: bool): Run {
    if m.channel !in chans then run
    else
      var entry := chans[m.channel];
      var refreshed := chans[m.channel := entry.(usersOnCooldown := entry.usersOnCooldown[m.author := now])];
      match Judge(entry.usersOnCooldown, entry.cooldownTime, m.author, now)
      case FirstMessage => run.(config := run.config.(cooldownChannels := refreshed))
      case CooledDown => run.(config := run.config.(cooldownChannels := refreshed))
      case TooSoon(elapsed) => Block(run, m, sendDm, entry.cooldownTime.value - elapsed, canDelete)
      case TimeMissing => run.(raised := true)
  }

  /** `_handle_category_cooldown` (customcooldown.py:123-166) on the copy
      `cats`: the entry is looked up under the channel's current parent;
      a refresh after the window also stores the entry under the channel's
      own id (customcooldown.py:162). */
  function CategoryGate(run: Run, cats: map<ChannelId, CategoryEntry>, m: Message, sendDm: bool, now: int, canDelete: bool): Run
    requires m.category.Some?
  {
    var cat := m.category.value;
    if cat !in cats then run
    else
      var entry := cats[cat];
      var entry' := entry.(usersOnCooldown := entry.usersOnCooldown[m.author := now]);
      match Judge(entry.usersOnCooldown, Some(entry.cooldownTime), m.author, now)
      case FirstMessage => run.(config := run.config.(cooldownCategories := cats[cat := entry']))
      case CooledDown => run.(config := run.config.(cooldownCategories := cats[cat := entry'][m.channel := entry']))
      case TooSoon(elapsed) => Block(run, m, sendDm, entry.cooldownTime - elapsed, canDelete)
      case TimeMissing => run.(raised := true)
  }

  /** The author is exempt: not in a guild, a bot while bots are ignored,
      an ignored user, or holding an ignored role. */
  predicate Ignored(config: Registry, m: Message) {
    || !m.inGuild
    || (config.ignoreBot && m.authorIsBot)
    || m.author in config.ignoreUsers
    || exists role :: role in config.ignoreRoles && role in m.authorRoles
  }

  /** The channel appears in the channel snapshot of some category entry. */
  predicate InSnapshot(cats: map<ChannelId, CategoryEntry>, channel: ChannelId) {
    exists key :: key in cats && channel in cats[key].channels
  }

  /** `on_message` (customcooldown.py:733-763): filter, then the channel
      gate and the category gate, one after the other, on the same message. */
  function OnMessageSpec(config: Registry, dmed: seq<UserId>, m: Message, now: int, canDelete: bool): Run {
    var start := Run(config, dmed, false, [], false);
    var chans := config.cooldownChannels;
    var cats := config.cooldownCategories;
    if Ignored(config, m) then start
    else if m.channel !in chans && !InSnapshot(cats, m.channel) then start
    else
      var afterChannel := if m.channel in chans then ChannelGate(start, chans, m, config.sendDm, now, canDelete) else start;
      if afterChannel.raised then afterChannel
      else if m.category.Some? && InSnapshot(cats, m.channel) then CategoryGate(afterChannel, cats, m, config.sendDm, now, canDelete)
      else afterChannel
  }

  // ---------------------------------------------------------------------
  // Properties of the gate

  /** A user with no timestamp in a registered channel is let through and
      `now` is recorded; nothing else about the channel entries changes. */
  lemma FirstMessageRecorded(config: Registry, dmed: seq<UserId>, m: Message, now: int, canDelete: bool)
    requires !Ignored(config, m) && m.channel in config.cooldownChannels
    requires m.author !in config.cooldownChannels[m.channel].usersOnCooldown
    ensures var run := OnMessageSpec(config, dmed, m, now, canDelete);
      var entry := config.cooldownChannels[m.channel];
      && !run.raised
      && run.config.cooldownChannels == config.cooldownChannels[m.channel := entry.(usersOnCooldown := entry.usersOnCooldown[m.author := now])]
      && (forall e :: e in run.effects ==> !e.DeleteAttempt? || m.category.Some?)
  {
    var chans := config.cooldownChannels;
    var afterChannel := ChannelGate(Run(config, dmed, false, [], false), chans, m, config.sendDm, now, canDelete);
    assert afterChannel.effects == [];
    if m.category.Some? && InSnapshot(config.cooldownCategories, m.channel) {
      CategoryGateKeepsChannels(afterChannel, config.cooldownCategories, m, config.sendDm, now, canDelete);
    }
  }

  /** Within the window (`now - last <= cooldown_time`, inclusive) the
      message is deleted, or the deletion is attempted, first of all, and
      the channel's stored timestamps stay as they were. */
  lemma TooSoonDeletesAndKeepsTimestamp(config: Registry, dmed: seq<UserId>, m: Message, now: int, canDelete: bool)
    requires !Ignored(config, m) && m.channel in config.cooldownChannels
    requires var entry := config.cooldownChannels[m.channel];
      && m.author in entry.usersOnCooldown && entry.cooldownTime.Some?
      && now - entry.usersOnCooldown[m.author] <= entry.cooldownTime.value
    ensures var run := OnMessageSpec(config, dmed, m, now, canDelete);
      && !run.raised
      && run.config.cooldownChannels == config.cooldownChannels
      && |run.effects| >= 1 && run.effects[0] == DeleteAttempt(canDelete)
  {
    var chans := config.cooldownChannels;
    var afterChannel := ChannelGate(Run(config, dmed, false, [], false), chans, m, config.sendDm, now, canDelete);
    assert afterChannel.config == config && afterChannel.effects[0] == DeleteAttempt(canDelete);
    if m.category.Some? && InSnapshot(config.cooldownCategories, m.channel) {
      CategoryGateKeepsChannels(afterChannel, config.cooldownCategories, m, config.sendDm, now, canDelete);
    }
  }

  /** After the window (`now - last > cooldown_time`) the message is let
      through by the channel gate and the author's timestamp becomes `now`. */
  lemma CooledDownRefreshes(config: Registry, dmed: seq<UserId>, m: Message, now: int, canDelete: bool)
    requires !Ignored(config, m) && m.channel in config.cooldownChannels
    requires var entry := config.cooldownChannels[m.channel];
      && m.author in entry.usersOnCooldown && entry.cooldownTime.Some?
      && now - entry.usersOnCooldown[m.author] > entry.cooldownTime.value
    ensures var run := OnMessageSpec(config, dmed, m, now, canDelete);
      var entry := config.cooldownChannels[m.channel];
      && !run.raised
      && run.config.cooldownChannels == config.cooldownChannels[m.channel := entry.(usersOnCooldown := entry.usersOnCooldown[m.author := now])]
      && run.config.cooldownChannels[m.channel].usersOnCooldown[m.author] == now
  {
    var chans := config.cooldownChannels;
    var afterChannel := ChannelGate(Run(config, dmed, false, [], false), chans, m, config.sendDm, now, canDelete);
    if m.category.Some? && InSnapshot(config.cooldownCategories, m.channel) {
      CategoryGateKeepsChannels(afterChannel, config.cooldownCategories, m, config.sendDm, now, canDelete);
    }
  }

  /** A channel whose stored time is `None` (left by `editchannel`) raises
      on the second message of a user: nothing is stored, nothing is
      deleted, and the category gate never runs. */
  lemma MissingTimeRaises(config: Registry, dmed: seq<UserId>, m: Message, now: int, canDelete: bool)
    requires !Ignored(config, m) && m.channel in config.cooldownChannels
    requires var entry := config.cooldownChannels[m.channel];
      m.author in entry.usersOnCooldown && entry.cooldownTime.None?
    ensures OnMessageSpec(config, dmed, m, now, canDelete) == Run(config, dmed, false, [], true)
  {
  }

  /** Exempt authors and unwatched channels leave everything unchanged. */
  lemma IgnoredChangesNothing(config: Registry, dmed: seq<UserId>, m: Message, now: int, canDelete: bool)
    requires || Ignored(config, m)
             || (m.channel !in config.cooldownChannels && !InSnapshot(config.cooldownCategories, m.channel))
    ensures OnMessageSpec(config, dmed, m, now, canDelete) == Run(config, dmed, false, [], false)
  {
  }

  lemma CategoryGateKeepsChannels(run: Run, cats: map<ChannelId, CategoryEntry>, m: Message, sendDm: bool, now: int, canDelete: bool)
    requires m.category.Some?
    ensures var r := CategoryGate(run, cats, m, sendDm, now, canDelete);
      && r.config.cooldownChannels == run.config.cooldownChannels
      && r.raised == run.raised
      && |r.effects| >= |run.effects| && r.effects[..|run.effects|] == run.effects
  {
    var cat := m.category.value;
    if cat in cats {
      var entry := cats[cat];
      var v := Judge(entry.usersOnCooldown, Some(entry.cooldownTime), m.author, now);
      if v.TooSoon? {
        BlockKeepsChannels(run, m, sendDm, entry.cooldownTime - v.elapsed, canDelete);
      }
    }
  }

  /** `Block` touches neither the settings nor the exception flag and only
      appends effects. */
  lemma BlockKeepsChannels(run: Run, m: Message, sendDm: bool, remaining: int, canDelete: bool)
    ensures var r := Block(run, m, sendDm, remaining, canDelete);
      && r.config == run.config && r.raised == run.raised
      && |r.effects| >= |run.effects| && r.effects[..|run.effects|] == run.effects
  {
  }

  /** Both gates run on one message: when both judge it too soon and the
      bot may delete, the channel gate deletes it, the category gate's own
      deletion then fails and the owner is warned, unless already warned. */
  lemma BothGatesRun(config: Registry, dmed: seq<UserId>, m: Message, now: int)
    requires !Ignored(config, m) && m.category.Some?
    requires m.channel in config.cooldownChannels && InSnapshot(config.cooldownCategories, m.channel)
    requires m.category.value in config.cooldownCategories
    requires !config.sendDm
    requires var entry := config.cooldownChannels[m.channel];
      && m.author in entry.usersOnCooldown && entry.cooldownTime.Some?
      && now - entry.usersOnCooldown[m.author] <= entry.cooldownTime.value
    requires var cat := config.cooldownCategories[m.category.value];
      m.author in cat.usersOnCooldown && now - cat.usersOnCooldown[m.author] <= cat.cooldownTime
    ensures var run := OnMessageSpec(config, dmed, m, now, true);
      run.effects == [DeleteAttempt(true), DeleteAttempt(false)] + (if m.owner in dmed then [] else [OwnerWarned(m.owner)])
  {
  }

  /** In the category gate's let-through branch the refreshed entry is
      stored under the category id and also under the channel id. */
  lemma CategoryRefreshStoredUnderChannelKey(config: Registry, dmed: seq<UserId>, m: Message, now: int, canDelete: bool)
    requires !Ignored(config, m) && m.category.Some? && m.channel !in config.cooldownChannels
    requires InSnapshot(config.cooldownCategories, m.channel) && m.category.value in config.cooldownCategories
    requires var cat := config.cooldownCategories[m.category.value];
      m.author in cat.usersOnCooldown && now - cat.usersOnCooldown[m.author] > cat.cooldownTime
    ensures var run := OnMessageSpec(config, dmed, m, now, canDelete);
      var cat := config.cooldownCategories[m.category.value];
      var entry' := cat.(usersOnCooldown := cat.usersOnCooldown[m.author := now]);
      && m.channel in run.config.cooldownCategories
      && run.config.cooldownCategories[m.channel] == entry'
      && run.config.cooldownCategories[m.category.value] == entry'
      && run.config.cooldownCategories.Keys == config.cooldownCategories.Keys + {m.channel}
  {
  }

  // ---------------------------------------------------------------------
  // The owner notice is sent at most once per owner

  /** How many owner notices for `owner` a list of effects holds. */
  function CountWarned(effects: seq<Effect>, owner: UserId): nat {
    multiset(effects)[OwnerWarned(owner)]
  }

  /** What one `Block` adds: a warning for `owner` only if not yet in
      `dmed`, and `dmed` only grows, by at most the warned owner. */
  lemma BlockWarnsOnce(run: Run, m: Message, sendDm: bool, remaining: int, canDelete: bool, owner: UserId)
    ensures WarnsOnce(run, Block(run, m, sendDm, remaining, canDelete), m, owner)
  {
    var r := Block(run, m, sendDm, remaining, canDelete);
    var warn := if sendDm && !m.authorIsBot then [AuthorWarned(m.author, remaining)] else [];
    assert CountWarned(warn, owner) == 0;
    if canDelete && !run.gone {
      CountWarnedAppend([DeleteAttempt(true)], warn, owner);
      AppendWarnsOnce(run, r, [DeleteAttempt(true)] + warn, m, owner);
    } else {
      var notice := NotifyOwner(run.dmed, m.owner);
      var head := [DeleteAttempt(false)] + warn;
      CountWarnedAppend([DeleteAttempt(false)], warn, owner);
      CountWarnedAppend(head, notice.1, owner);
      AppendWarnsOnce(run, r, head + notice.1, m, owner);
    }
  }

  /** A step that appends `added` and warns at most the message's owner. */
  lemma AppendWarnsOnce(before: Run, after: Run, added: seq<Effect>, m: Message, owner: UserId)
    requires after.effects == before.effects + added
    requires after.dmed == before.dmed || (m.owner !in before.dmed && after.dmed == before.dmed + [m.owner])
    requires CountWarned(added, owner) == (if owner !in before.dmed && owner in after.dmed then 1 else 0)
    ensures WarnsOnce(before, after, m, owner)
  {
    CountWarnedAppend(before.effects, added, owner);
    if after.dmed != before.dmed {
      assert after.dmed[..|before.dmed|] == before.dmed;
    }
  }

  lemma CountWarnedAppend(a: seq<Effect>, b: seq<Effect>, owner: UserId)
    ensures CountWarned(a + b, owner) == CountWarned(a, owner) + CountWarned(b, owner)
  {
    assert multiset(a + b) == multiset(a) + multiset(b);
  }

  /** One message: the owner notice for `owner` is sent at most once, and
      only when `owner` was not yet warned; afterwards `owner` is recorded
      as warned if it was warned now; `dmed` only grows. */
  lemma OnMessageWarnsOnce(config: Registry, dmed: seq<UserId>, m: Message, now: int, canDelete: bool, owner: UserId)
    ensures var run := OnMessageSpec(config, dmed, m, now, canDelete);
      && CountWarned(run.effects, owner) == (if owner !in dmed && owner in run.dmed then 1 else 0)
      && |run.dmed| >= |dmed| && run.dmed[..|dmed|] == dmed
  {
    var start := Run(config, dmed, false, [], false);
    var chans := config.cooldownChannels;
    var cats := config.cooldownCategories;
    if Ignored(config, m) || (m.channel !in chans && !InSnapshot(cats, m.channel)) {
      return;
    }
    var afterChannel := if m.channel in chans then ChannelGate(start, chans, m, config.sendDm, now, canDelete) else start;
    if m.channel in chans {
      ChannelGateWarnsOnce(start, chans, m, config.sendDm, now, canDelete, owner);
    }
    if !afterChannel.raised && m.category.Some? && InSnapshot(cats, m.channel) {
      var r := CategoryGate(afterChannel, cats, m, config.sendDm, now, canDelete);
      CategoryGateWarnsOnce(afterChannel, cats, m, config.sendDm, now, canDelete, owner);
      assert r.dmed[..|dmed|] == afterChannel.dmed[..|dmed|];
    }
  }

  /** Growth of `dmed` and of the notices through one step, as `Block` and
      both gates keep it. */
  predicate WarnsOnce(before: Run, after: Run, m: Message, owner: UserId) {
    && CountWarned(after.effects, owner) == CountWarned(before.effects, owner) + (if owner !in before.dmed && owner in after.dmed then 1 else 0)
    && |after.dmed| >= |before.dmed| && after.dmed[..|before.dmed|] == before.dmed
    && (forall o :: o in after.dmed ==> o in before.dmed || o == m.owner)
  }

  lemma NoWarningStep(before: Run, after: Run, m: Message, owner: UserId)
    requires after.dmed == before.dmed && after.effects == before.effects
    ensures WarnsOnce(before, after, m, owner)
  {
  }

  lemma ChannelGateWarnsOnce(run: Run, chans: map<ChannelId, ChannelEntry>, m: Message, sendDm: bool, now: int, canDelete: bool, owner: UserId)
    ensures WarnsOnce(run, ChannelGate(run, chans, m, sendDm, now, canDelete), m, owner)
  {
    var r := ChannelGate(run, chans, m, sendDm, now, canDelete);
    if m.channel !in chans {
      NoWarningStep(run, r, m, owner);
    } else {
      var entry := chans[m.channel];
      var v := Judge(entry.usersOnCooldown, entry.cooldownTime, m.author, now);
      if v.TooSoon? {
        assert r == Block(run, m, sendDm, entry.cooldownTime.value - v.elapsed, canDelete);
        BlockWarnsOnce(run, m, sendDm, entry.cooldownTime.value - v.elapsed, canDelete, owner);
      } else {
        assert r.dmed == run.dmed && r.effects == run.effects;
        NoWarningStep(run, r, m, owner);
      }
    }
  }

  lemma CategoryGateWarnsOnce(run: Run, cats: map<ChannelId, CategoryEntry>, m: Message, sendDm: bool, now: int, canDelete: bool, owner: UserId)
    requires m.category.Some?
    ensures WarnsOnce(run, CategoryGate(run, cats, m, sendDm, now, canDelete), m, owner)
  {
    var r := CategoryGate(run, cats, m, sendDm, now, canDelete);
    var cat := m.category.value;
    if cat !in cats {
      NoWarningStep(run, r, m, owner);
    } else {
      var entry := cats[cat];
      var v := Judge(entry.usersOnCooldown, Some(entry.cooldownTime), m.author, now);
      if v.TooSoon? {
        assert r == Block(run, m, sendDm, entry.cooldownTime - v.elapsed, canDelete);
        BlockWarnsOnce(run, m, sendDm, entry.cooldownTime - v.elapsed, canDelete, owner);
      } else {
        assert r.dmed == run.dmed && r.effects == run.effects;
        NoWarningStep(run, r, m, owner);
      }
    }
  }

  /** A message as the listener receives it, with the clock reading and
      whether the bot may delete it. */
  datatype Event = Event(m: Message, now: int, canDelete: bool)

  /** A run of `on_message` over a sequence of events; returns the final
      settings and warned owners, and all effects in order. */
  function OnMessages(config: Registry, dmed: seq<UserId>, events: seq<Event>): (Registry, seq<UserId>, seq<Effect>)
    decreases |events|
  {
    if events == [] then (config, dmed, [])
    else
      var run := OnMessageSpec(config, dmed, events[0].m, events[0].now, events[0].canDelete);
      var rest := OnMessages(run.config, run.dmed, events[1..]);
      (rest.0, rest.1, run.effects + rest.2)
  }

  /** Over any sequence of messages an owner receives the deletion notice
      at most once, and never when already in `dmed` at the start. */
  lemma {:induction false} OwnerWarnedAtMostOnce(config: Registry, dmed: seq<UserId>, events: seq<Event>, owner: UserId)
    ensures var r := OnMessages(config, dmed, events);
      && CountWarned(r.2, owner) <= 1
      && (owner in dmed ==> CountWarned(r.2, owner) == 0)
      && (CountWarned(r.2, owner) == 1 ==> owner in r.1)
    decreases |events|
  {
    if events != [] {
      var run := OnMessageSpec(config, dmed, events[0].m, events[0].now, events[0].canDelete);
      var rest := OnMessages(run.config, run.dmed, events[1..]);
      OnMessageWarnsOnce(config, dmed, events[0].m, events[0].now, events[0].canDelete, owner);
      OwnerWarnedAtMostOnce(run.config, run.dmed, events[1..], owner);
      assert multiset(run.effects + rest.2) == multiset(run.effects) + multiset(rest.2);
      if owner in dmed {
        assert owner in run.dmed by { assert run.dmed[..|dmed|] == dmed; }
      }
      if owner in run.dmed {
        DmedKeeps(run.config, run.dmed, events[1..], owner);
      }
    }
  }

  lemma {:induction false} DmedKeeps(config: Registry, dmed: seq<UserId>, events: seq<Event>, owner: UserId)
    requires owner in dmed
    ensures owner in OnMessages(config, dmed, events).1
    decreases |events|
  {
    if events != [] {
      var run := OnMessageSpec(config, dmed, events[0].m, events[0].now, events[0].canDelete);
      OnMessageWarnsOnce(config, dmed, events[0].m, events[0].now, events[0].canDelete, owner);
      assert owner in run.dmed by { assert run.dmed[..|dmed|] == dmed; }
      DmedKeeps(run.config, run.dmed, events[1..], owner);
    }
  }

  /** `CategoryGate` applied after earlier effects adds its own effects
      after them and otherwise does what it does on a fresh run. */
  lemma CategoryGateAppends(run: Run, cats: map<ChannelId, CategoryEntry>, m: Message, sendDm: bool, now: int, canDelete: bool)
    requires m.category.Some?
    ensures var clean := CategoryGate(run.(effects := []), cats, m, sendDm, now, canDelete);
      CategoryGate(run, cats, m, sendDm, now, canDelete) == clean.(effects := run.effects + clean.effects)
  {
    var cat := m.category.value;
    if cat in cats {
      var entry := cats[cat];
      var v := Judge(entry.usersOnCooldown, Some(entry.cooldownTime), m.author, now);
      if v.TooSoon? {
        BlockAppends(run, m, sendDm, entry.cooldownTime - v.elapsed, canDelete);
        return;
      }
    }
    assert run.effects + [] == run.effects;
  }

  /** `Block` after earlier effects appends its own after them. */
  lemma BlockAppends(run: Run, m: Message, sendDm: bool, remaining: int, canDelete: bool)
    ensures var clean := Block(run.(effects := []), m, sendDm, remaining, canDelete);
      Block(run, m, sendDm, remaining, canDelete) == clean.(effects := run.effects + clean.effects)
  {
  }

  // ---------------------------------------------------------------------
  // Configuration commands

  /** A parsed duration, normalised as Python's `timedelta` keeps it. */
  datatype Timedelta = Timedelta(days: nat, seconds: nat, microseconds: nat)

  function TotalMicroseconds(d: Timedelta): nat {
    (d.days * 86400 + d.seconds) * 1000000 + d.microseconds
  }

  /** `_return_time` (customcooldown.py:815-819): the parsed duration, if
      any, truncated to whole seconds. */
  function ReturnTime(parsed: Option<Timedelta>): (r: Option<nat>)
    requires parsed.Some? ==> parsed.value.microseconds < 1000000
    ensures r.Some? <==> parsed.Some?
    ensures parsed.Some? ==> r.value * 1000000 <= TotalMicroseconds(parsed.value) < (r.value + 1) * 1000000
  {
    if parsed.None? then None else Some(parsed.value.days * 86400 + parsed.value.seconds)
  }

  /** Python truthiness of the time `_return_time` gave back. */
  predicate Truthy(time: Option<nat>) {
    time.Some? && time.value != 0
  }

  /** What a command answers in the channel. */
  datatype Reply =
    | Help                          // `send_help`
    | NeedManageMessages
    | AlreadyRegistered
    | NotRegistered
    | BadTime                       // "Your time is not correct to me."
    | TimeSet(time: Option<nat>)    // "... is now set at 1 message every {time} seconds."
    | Ticked
    | CannotFind                    // `_delete_*`: "I can't find ... into the configured cooldown."
    | KeptCooldown                  // the deletion was declined
    | BotsRefused(bots: seq<UserId>)
    | AlreadyIgnored(ids: seq<nat>)
    | AlreadyNotIgnored(ids: seq<nat>)
    | BypassNotOnCooldown           // channel or category not registered
    | BypassUserNotOnCooldown       // the member has no timestamp there
    | BypassDone
    | DmSet(on: bool)               // "I will now DM users ..." or "I won't send DM to users anymore."
    | IgnoreBotSet(on: bool)        // "I will now ignore bot ..." or "I won't ignore bots anymore."

  /** A member named in an ignore-list command. */
  datatype Member = Member(id: UserId, isBot: bool)

  predicate NoDuplicates(s: seq<nat>) {
    forall i, j :: 0 <= i < j < |s| ==> s[i] != s[j]
  }

  /** Python's `list.remove(x)`: drop the first occurrence of `x`. */
  function RemoveFirst(s: seq<nat>, x: nat): (r: seq<nat>)
    ensures |r| <= |s|
    ensures x in s ==> |r| == |s| - 1
    ensures forall y :: y in r ==> y in s
  {
    if s == [] then [] else if s[0] == x then s[1..] else [s[0]] + RemoveFirst(s[1..], x)
  }

  /** Without duplicates, removing the first occurrence removes `x`
      altogether and keeps the list free of duplicates. */
  lemma {:induction false} RemoveFirstNoDuplicates(s: seq<nat>, x: nat)
    requires NoDuplicates(s)
    ensures NoDuplicates(RemoveFirst(s, x))
    ensures forall y :: y in RemoveFirst(s, x) <==> y in s && y != x
  {
    if s != [] && s[0] != x {
      assert NoDuplicates(s[1..]) by {
        forall i, j | 0 <= i < j < |s[1..]| ensures s[1..][i] != s[1..][j] {
          assert s[1..][i] == s[i + 1] && s[1..][j] == s[j + 1];
        }
      }
      RemoveFirstNoDuplicates(s[1..], x);
      var r := RemoveFirst(s, x);
      assert r == [s[0]] + RemoveFirst(s[1..], x);
      assert s[0] !in s[1..] by {
        forall k | 0 <= k < |s[1..]| ensures s[1..][k] != s[0] { assert s[1..][k] == s[k + 1]; }
      }
    } else if s != [] {
      assert forall y :: y in s[1..] ==> y != x by {
        forall k | 0 <= k < |s[1..]| ensures s[1..][k] != x { assert s[1..][k] == s[k + 1]; }
      }
      forall i, j | 0 <= i < j < |s[1..]| ensures s[1..][i] != s[1..][j] {
        assert s[1..][i] == s[i + 1] && s[1..][j] == s[j + 1];
      }
    }
  }

  /** What the loop of `addignoreusers` (customcooldown.py:498-506) leaves
      after going through `users`: the ignore list, the bots refused and
      the ids reported as already ignored, each in the order met. An id is
      checked against the list as it grows, so a member named twice is
      reported the second time. Every member lands in exactly one of the
      three. */
  function AddUsersSpec(iu: seq<UserId>, users: seq<Member>): (r: (seq<UserId>, seq<UserId>, seq<UserId>))
    ensures |r.0| + |r.1| + |r.2| == |iu| + |users|
    decreases |users|
  {
    if users == [] then (iu, [], [])
    else
      var (result, bots, alreadyAdded) := AddUsersSpec(iu, users[..|users| - 1]);
      var user := users[|users| - 1];
      if user.isBot then (result, bots + [user.id], alreadyAdded)
      else if user.id !in result then (result + [user.id], bots, alreadyAdded)
      else (result, bots, alreadyAdded + [user.id])
  }

  /** What the loop of `addignoreroles` (customcooldown.py:582-587) leaves:
      the ignore list and the ids reported as already ignored. */
  function AddRolesSpec(ir: seq<RoleId>, roles: seq<RoleId>): (r: (seq<RoleId>, seq<RoleId>))
    ensures |r.0| + |r.1| == |ir| + |roles|
    decreases |roles|
  {
    if roles == [] then (ir, [])
    else
      var (result, alreadyAdded) := AddRolesSpec(ir, roles[..|roles| - 1]);
      var role := roles[|roles| - 1];
      if role !in result then (result + [role], alreadyAdded) else (result, alreadyAdded + [role])
  }

  /** What the loop of `removeignoreusers` and `removeignoreroles`
      (customcooldown.py:531-536, 606-611) leaves: the list and the ids
      reported as already not ignored. Each id given either removes one
      entry or is reported. */
  function RemoveSpec(list: seq<nat>, ids: seq<nat>): (r: (seq<nat>, seq<nat>))
    ensures |r.0| + |ids| == |list| + |r.1|
    decreases |ids|
  {
    if ids == [] then (list, [])
    else
      var (result, notListed) := RemoveSpec(list, ids[..|ids| - 1]);
      var id := ids[|ids| - 1];
      if id in result then (RemoveFirst(result, id), notListed) else (result, notListed + [id])
  }

  /** The loop of `addignoreusers` (customcooldown.py:498-506): bots are
      refused, listed ids are reported, the others are appended in order. */
  method AppendIgnoredUsers(iu: seq<UserId>, users: seq<Member>) returns (result: seq<UserId>, bots: seq<UserId>, alreadyAdded: seq<UserId>)
    ensures |result| >= |iu| && result[..|iu|] == iu
    ensures forall x :: x in result <==> x in iu || exists u :: u in users && !u.isBot && u.id == x
    ensures NoDuplicates(iu) ==> NoDuplicates(result)
    ensures forall x :: x in bots <==> exists u :: u in users && u.isBot && u.id == x
    ensures forall x :: x in alreadyAdded ==> exists u :: u in users && !u.isBot && u.id == x
    ensures forall u :: u in users && !u.isBot && u.id in iu ==> u.id in alreadyAdded
    ensures (result, bots, alreadyAdded) == AddUsersSpec(iu, users)
  {
    result, bots, alreadyAdded := iu, [], [];
    for i := 0 to |users|
      invariant |result| >= |iu| && result[..|iu|] == iu
      invariant forall x :: x in result <==> x in iu || exists u :: u in users[..i] && !u.isBot && u.id == x
      invariant NoDuplicates(iu) ==> NoDuplicates(result)
      invariant forall x :: x in bots <==> exists u :: u in users[..i] && u.isBot && u.id == x
      invariant forall x :: x in alreadyAdded ==> exists u :: u in users[..i] && !u.isBot && u.id == x
      invariant forall u :: u in users[..i] && !u.isBot && u.id in iu ==> u.id in alreadyAdded
      invariant (result, bots, alreadyAdded) == AddUsersSpec(iu, users[..i])
    {
      var user := users[i];
      assert users[..i + 1] == users[..i] + [user];
      assert users[..i + 1][..i] == users[..i];
      if user.isBot {
        bots := bots + [user.id];
        continue;
      }
      if user.id !in result {
        result := result + [user.id];
      } else {
        alreadyAdded := alreadyAdded + [user.id];
      }
    }
    assert users[..|users|] == users;
  }

  /** The loop of `addignoreroles` (customcooldown.py:582-587): listed ids
      are reported, the others are appended in order. */
  method AppendIgnoredRoles(ir: seq<RoleId>, roles: seq<RoleId>) returns (result: seq<RoleId>, alreadyAdded: seq<RoleId>)
    ensures |result| >= |ir| && result[..|ir|] == ir
    ensures forall x :: x in result <==> x in ir || x in roles
    ensures NoDuplicates(ir) ==> NoDuplicates(result)
    ensures forall x :: x in alreadyAdded ==> x in roles
    ensures forall x :: x in roles && x in ir ==> x in alreadyAdded
    ensures (result, alreadyAdded) == AddRolesSpec(ir, roles)
  {
    result, alreadyAdded := ir, [];
    for i := 0 to |roles|
      invariant |result| >= |ir| && result[..|ir|] == ir
      invariant forall x :: x in result <==> x in ir || x in roles[..i]
      invariant NoDuplicates(ir) ==> NoDuplicates(result)
      invariant forall x :: x in alreadyAdded ==> x in roles[..i]
      invariant forall x :: x in roles[..i] && x in ir ==> x in alreadyAdded
      invariant (result, alreadyAdded) == AddRolesSpec(ir, roles[..i])
    {
      assert roles[..i + 1] == roles[..i] + [roles[i]];
      assert roles[..i + 1][..i] == roles[..i];
      if roles[i] !in result {
        result := result + [roles[i]];
      } else {
        alreadyAdded := alreadyAdded + [roles[i]];
      }
    }
    assert roles[..|roles|] == roles;
  }

  /** The loop of `removeignoreusers` and `removeignoreroles`
      (customcooldown.py:531-536, 606-611): each listed id is removed, each
      id not (or no longer) listed is reported. */
  method RemoveIgnored(list: seq<nat>, ids: seq<nat>) returns (result: seq<nat>, notListed: seq<nat>)
    ensures |result| <= |list|
    ensures forall x :: x in result ==> x in list
    ensures NoDuplicates(list) ==> NoDuplicates(result) && forall x :: x in result <==> x in list && x !in ids
    ensures forall x :: x in notListed ==> x in ids
    ensures forall x :: x in ids && x !in list ==> x in notListed
    ensures (result, notListed) == RemoveSpec(list, ids)
  {
    result, notListed := list, [];
    for i := 0 to |ids|
      invariant |result| <= |list|
      invariant forall x :: x in result ==> x in list
      invariant NoDuplicates(list) ==> NoDuplicates(result) && forall x :: x in result <==> x in list && x !in ids[..i]
      invariant forall x :: x in notListed ==> x in ids[..i]
      invariant forall x :: x in ids[..i] && x !in list ==> x in notListed
      invariant (result, notListed) == RemoveSpec(list, ids[..i])
    {
      assert ids[..i + 1] == ids[..i] + [ids[i]];
      assert ids[..i + 1][..i] == ids[..i];
      if ids[i] in result {
        if NoDuplicates(list) {
          RemoveFirstNoDuplicates(result, ids[i]);
        }
        result := RemoveFirst(result, ids[i]);
      } else {
        notListed := notListed + [ids[i]];
      }
    }
    assert ids[..|ids|] == ids;
  }

  /** Who asks for a user's data to be deleted. */
  datatype Requester = DiscordDeletedUser | Owner | User | UserStrict

  /** The plugin for one guild: its stored settings and the owners already
      warned that a deletion failed. */
  class Cog {
    var config: Registry
    var dmed: seq<UserId>

    constructor ()
      ensures config == Defaults && dmed == []
    {
      config := Defaults;
      dmed := [];
    }

    /** `_dm_owner` (customcooldown.py:830-841). */
    method DmOwner(owner: UserId) returns (effects: seq<Effect>)
      modifies this`dmed
      ensures (dmed, effects) == NotifyOwner(old(dmed), owner)
    {
      if owner in dmed {
        return [];
      }
      effects := [OwnerWarned(owner)];
      dmed := dmed + [owner];
    }

    /** The too-soon branch of both handlers: delete, DM the author, warn
        the owner if the deletion failed. */
    method Reject(m: Message, sendDm: bool, remaining: int, canDelete: bool, gone: bool) returns (gone': bool, effects: seq<Effect>)
      modifies this`dmed
      ensures var run := Block(Run(config, old(dmed), gone, [], false), m, sendDm, remaining, canDelete);
        dmed == run.dmed && gone' == run.gone && effects == run.effects
    {
      var deleted := canDelete && !gone;
      effects := [DeleteAttempt(deleted)];
      gone' := gone || deleted;
      if sendDm && !m.authorIsBot {
        effects := effects + [AuthorWarned(m.author, remaining)];
      }
      if !deleted {
        var notice := DmOwner(m.owner);
        effects := effects + notice;
      }
    }

    /** `_handle_channel_cooldown` (customcooldown.py:77-121). */
    method HandleChannelCooldown(m: Message, cooldownChannels: map<ChannelId, ChannelEntry>, sendDm: bool, now: int, canDelete: bool, gone: bool)
      returns (gone': bool, effects: seq<Effect>, raised: bool)
      modifies this
      ensures var run := ChannelGate(Run(old(config), old(dmed), gone, [], false), cooldownChannels, m, sendDm, now, canDelete);
        config == run.config && dmed == run.dmed && gone' == run.gone && effects == run.effects && raised == run.raised
    {
      gone', effects, raised := gone, [], false;
      if m.channel !in cooldownChannels {
        return;
      }
      var channelData := cooldownChannels[m.channel];
      var users := channelData.usersOnCooldown;
      if m.author !in users {
        users := users[m.author := now];
        config := config.(cooldownChannels := cooldownChannels[m.channel := channelData.(usersOnCooldown := users)]);
      } else {
        var totalSeconds := now - users[m.author];
        if channelData.cooldownTime.None? {
          raised := true;
          return;
        }
        if totalSeconds <= channelData.cooldownTime.value {
          gone', effects := Reject(m, sendDm, channelData.cooldownTime.value - totalSeconds, canDelete, gone);
        } else {
          users := users[m.author := now];
          config := config.(cooldownChannels := cooldownChannels[m.channel := channelData.(usersOnCooldown := users)]);
        }
      }
    }

    /** `_handle_category_cooldown` (customcooldown.py:123-166). */
    method HandleCategoryCooldown(m: Message, cooldownCategories: map<ChannelId, CategoryEntry>, sendDm: bool, now: int, canDelete: bool, gone: bool)
      returns (gone': bool, effects: seq<Effect>)
      requires m.category.Some?
      modifies this
      ensures var run := CategoryGate(Run(old(config), old(dmed), gone, [], false), cooldownCategories, m, sendDm, now, canDelete);
        config == run.config && dmed == run.dmed && gone' == run.gone && effects == run.effects && !run.raised
    {
      gone', effects := gone, [];
      var category := m.category.value;
      if category !in cooldownCategories {
        return;
      }
      var categoryData := cooldownCategories[category];
      var users := categoryData.usersOnCooldown;
      if m.author !in users {
        users := users[m.author := now];
        config := config.(cooldownCategories := cooldownCategories[category := categoryData.(usersOnCooldown := users)]);
      } else {
        var totalSeconds := now - users[m.author];
        if totalSeconds <= categoryData.cooldownTime {
          gone', effects := Reject(m, sendDm, categoryData.cooldownTime - totalSeconds, canDelete, gone);
        } else {
          users := users[m.author := now];
          categoryData := categoryData.(usersOnCooldown := users);
          // the entry is stored back under the category id and under the channel id
          config := config.(cooldownCategories := cooldownCategories[category := categoryData][m.channel := categoryData]);
        }
      }
    }

    /** `on_message` (customcooldown.py:733-763). */
    method OnMessage(m: Message, now: int, canDelete: bool) returns (effects: seq<Effect>, raised: bool)
      modifies this
      ensures var run := OnMessageSpec(old(config), old(dmed), m, now, canDelete);
        config == run.config && dmed == run.dmed && effects == run.effects && raised == run.raised
    {
      effects, raised := [], false;
      if !m.inGuild {
        return;
      }
      if config.ignoreBot && m.authorIsBot {
        return;
      }
      if m.author in config.ignoreUsers {
        return;
      }
      for i := 0 to |config.ignoreRoles|
        invariant forall k :: 0 <= k < i ==> config.ignoreRoles[k] !in m.authorRoles
      {
        if config.ignoreRoles[i] in m.authorRoles {
          return;
        }
      }
      var cooldownChannels := config.cooldownChannels;
      var cooldownCategories := config.cooldownCategories;
      // every channel listed in some category entry
      var categoriesChannels: seq<ChannelId> := [];
      var pending := cooldownCategories.Keys;
      while pending != {}
        invariant pending <= cooldownCategories.Keys
        invariant forall c :: c in categoriesChannels <==>
          exists key :: key in cooldownCategories && key !in pending && c in cooldownCategories[key].channels
        decreases pending
      {
        var key :| key in pending;
        categoriesChannels := categoriesChannels + cooldownCategories[key].channels;
        pending := pending - {key};
      }
      assert m.channel in categoriesChannels <==> InSnapshot(cooldownCategories, m.channel);
      if m.channel !in cooldownChannels && m.channel !in categoriesChannels {
        return;
      }
      var sendDm := config.sendDm;
      var gone := false;
      ghost var start := Run(config, dmed, false, [], false);
      if m.channel in cooldownChannels {
        gone, effects, raised := HandleChannelCooldown(m, cooldownChannels, sendDm, now, canDelete, gone);
        if raised {
          return;
        }
      }
      if m.category.Some? && m.channel in categoriesChannels {
        ghost var afterChannel := Run(config, dmed, gone, effects, false);
        CategoryGateAppends(afterChannel, cooldownCategories, m, sendDm, now, canDelete);
        var more;
        gone, more := HandleCategoryCooldown(m, cooldownCategories, sendDm, now, canDelete, gone);
        effects := effects + more;
      }
    }

    /** `_update_channel_data` (customcooldown.py:767-776): a fresh entry
        with no timestamps. */
    method UpdateChannelData(channel: ChannelId, time: Option<nat>)
      modifies this`config
      ensures config == old(config).(cooldownChannels := old(config).cooldownChannels[channel := ChannelEntry(time, map[])])
    {
      config := config.(cooldownChannels := config.cooldownChannels[channel := ChannelEntry(time, map[])]);
    }

    /** `_update_category_data` (customcooldown.py:778-788): a fresh entry
        with no timestamps and the category's current channels. */
    method UpdateCategoryData(category: ChannelId, time: nat, channels: seq<ChannelId>)
      modifies this`config
      ensures config == old(config).(cooldownCategories := old(config).cooldownCategories[category := CategoryEntry(time, map[], channels)])
    {
      config := config.(cooldownCategories := config.cooldownCategories[category := CategoryEntry(time, map[], channels)]);
    }

    /** `slow channel add` (customcooldown.py:338-370). */
    method AddChannel(channel: ChannelId, canManageMessages: bool, parsed: Option<Timedelta>) returns (reply: Reply)
      requires parsed.Some? ==> parsed.value.microseconds < 1000000
      modifies this`config
      ensures var time := ReturnTime(parsed);
        var added := canManageMessages && channel !in old(config).cooldownChannels && Truthy(time);
        && (added ==> config == old(config).(cooldownChannels := old(config).cooldownChannels[channel := ChannelEntry(time, map[])]) && reply == TimeSet(time))
        && (!added ==> config == old(config))
        && (!canManageMessages ==> reply == NeedManageMessages)
        && (canManageMessages && channel in old(config).cooldownChannels ==> reply == AlreadyRegistered)
        && (canManageMessages && channel !in old(config).cooldownChannels && !Truthy(time) ==> reply == BadTime)
    {
      if !canManageMessages {
        return NeedManageMessages;
      }
      if channel in config.cooldownChannels {
        return AlreadyRegistered;
      }
      var time := ReturnTime(parsed);
      if !Truthy(time) {
        return BadTime;
      }
      UpdateChannelData(channel, time);
      reply := TimeSet(time);
    }

    /** `slow channel edit` (customcooldown.py:372-394): after warning about
        a time that is missing or zero it still stores it. */
    method EditChannel(channel: ChannelId, parsed: Option<Timedelta>) returns (replies: seq<Reply>)
      requires parsed.Some? ==> parsed.value.microseconds < 1000000
      modifies this`config
      ensures var time := ReturnTime(parsed);
        && (channel !in old(config).cooldownChannels ==> config == old(config) && replies == [NotRegistered])
        && (channel in old(config).cooldownChannels ==>
              && config == old(config).(cooldownChannels := old(config).cooldownChannels[channel := ChannelEntry(time, map[])])
              && replies == (if Truthy(time) then [] else [BadTime]) + [TimeSet(time)])
    {
      if channel !in config.cooldownChannels {
        return [NotRegistered];
      }
      var time := ReturnTime(parsed);
      replies := [];
      if !Truthy(time) {
        replies := [BadTime];
      }
      UpdateChannelData(channel, time);
      replies := replies + [TimeSet(time)];
    }

    /** `slow category add` (customcooldown.py:205-242): the permission
        warning does not stop the command. */
    method AddCategory(category: ChannelId, canManageMessages: bool, parsed: Option<Timedelta>, channels: seq<ChannelId>) returns (replies: seq<Reply>)
      requires parsed.Some? ==> parsed.value.microseconds < 1000000
      modifies this`config
      ensures var time := ReturnTime(parsed);
        var warning := if canManageMessages then [] else [NeedManageMessages];
        && (category in old(config).cooldownCategories ==> config == old(config) && replies == warning + [AlreadyRegistered])
        && (category !in old(config).cooldownCategories && !Truthy(time) ==> config == old(config) && replies == warning + [BadTime])
        && (category !in old(config).cooldownCategories && Truthy(time) ==>
              && config == old(config).(cooldownCategories := old(config).cooldownCategories[category := CategoryEntry(time.value, map[], channels)])
              && replies == warning + [TimeSet(time)])
    {
      replies := if canManageMessages then [] else [NeedManageMessages];
      if category in config.cooldownCategories {
        return replies + [AlreadyRegistered];
      }
      var time := ReturnTime(parsed);
      if Truthy(time) {
        UpdateCategoryData(category, time.value, channels);
        replies := replies + [TimeSet(time)];
      } else {
        replies := replies + [BadTime];
      }
    }

    /** `slow category edit` (customcooldown.py:244-269): also takes a new
        snapshot of the category's channels. */
    method EditCategory(category: ChannelId, parsed: Option<Timedelta>, channels: seq<ChannelId>) returns (reply: Reply)
      requires parsed.Some? ==> parsed.value.microseconds < 1000000
      modifies this`config
      ensures var time := ReturnTime(parsed);
        && (category !in old(config).cooldownCategories ==> config == old(config) && reply == NotRegistered)
        && (category in old(config).cooldownCategories && !Truthy(time) ==> config == old(config) && reply == BadTime)
        && (category in old(config).cooldownCategories && Truthy(time) ==>
              && config == old(config).(cooldownCategories := old(config).cooldownCategories[category := CategoryEntry(time.value, map[], channels)])
              && reply == TimeSet(time))
    {
      if category !in config.cooldownCategories {
        return NotRegistered;
      }
      var time := ReturnTime(parsed);
      if Truthy(time) {
        UpdateCategoryData(category, time.value, channels);
        reply := TimeSet(time);
      } else {
        reply := BadTime;
      }
    }

    /** `slow category update` (customcooldown.py:296-308): same time, fresh
        timestamps, current channels. */
    method UpdateCategory(category: ChannelId, channels: seq<ChannelId>) returns (reply: Reply)
      modifies this`config
      ensures category !in old(config).cooldownCategories ==> config == old(config) && reply == NotRegistered
      ensures category in old(config).cooldownCategories ==>
        && config == old(config).(cooldownCategories := old(config).cooldownCategories[category :=
             CategoryEntry(old(config).cooldownCategories[category].cooldownTime, map[], channels)])
        && reply == Ticked
    {
      if category !in config.cooldownCategories {
        return NotRegistered;
      }
      var time := config.cooldownCategories[category].cooldownTime;
      UpdateCategoryData(category, time, channels);
      reply := Ticked;
    }

    /** `slow channel delete` with `_delete_channel`
        (customcooldown.py:396-417, 790-800); `confirm` is the yes/no
        answer, `None` on timeout. */
    method DeleteChannel(channel: ChannelId, confirm: Option<bool>) returns (replies: seq<Reply>)
      modifies this`config
      ensures confirm == Some(true) && channel in old(config).cooldownChannels ==>
        config == old(config).(cooldownChannels := old(config).cooldownChannels - {channel}) && replies == [Ticked]
      ensures confirm == Some(true) && channel !in old(config).cooldownChannels ==> config == old(config) && replies == [CannotFind, Ticked]
      ensures confirm == Some(false) ==> config == old(config) && replies == [KeptCooldown]
      ensures confirm == None ==> config == old(config) && replies == [Ticked]
    {
      if confirm == None {
        return [Ticked];
      }
      if !confirm.value {
        return [KeptCooldown];
      }
      if channel in config.cooldownChannels {
        config := config.(cooldownChannels := config.cooldownChannels - {channel});
        replies := [Ticked];
      } else {
        replies := [CannotFind, Ticked];
      }
    }

    /** `slow category delete` with `_delete_category`
        (customcooldown.py:271-294, 802-812). */
    method DeleteCategory(category: ChannelId, confirm: Option<bool>) returns (replies: seq<Reply>)
      modifies this`config
      ensures confirm == Some(true) && category in old(config).cooldownCategories ==>
        config == old(config).(cooldownCategories := old(config).cooldownCategories - {category}) && replies == [Ticked]
      ensures confirm == Some(true) && category !in old(config).cooldownCategories ==> config == old(config) && replies == [CannotFind, Ticked]
      ensures confirm == Some(false) ==> config == old(config) && replies == [KeptCooldown]
      ensures confirm == None ==> config == old(config) && replies == [Ticked]
    {
      if confirm == None {
        return [Ticked];
      }
      if !confirm.value {
        return [KeptCooldown];
      }
      if category in config.cooldownCategories {
        config := config.(cooldownCategories := config.cooldownCategories - {category});
        replies := [Ticked];
      } else {
        replies := [CannotFind, Ticked];
      }
    }

    /** `slowset dm` (customcooldown.py:428-442). */
    method SetDm(option: Option<bool>) returns (reply: Reply)
      modifies this`config
      ensures option.Some? ==> config == old(config).(sendDm := option.value) && reply == DmSet(option.value)
      ensures option.None? ==> config == old(config) && reply == Help
    {
      if option.Some? {
        config := config.(sendDm := option.value);
        reply := DmSet(option.value);
      } else {
        reply := Help;
      }
    }

    /** `slowset ignorebot` (customcooldown.py:444-462). */
    method SetIgnoreBot(option: Option<bool>) returns (reply: Reply)
      modifies this`config
      ensures option.Some? ==> config == old(config).(ignoreBot := option.value) && reply == IgnoreBotSet(option.value)
      ensures option.None? ==> config == old(config) && reply == Help
    {
      if option.Some? {
        config := config.(ignoreBot := option.value);
        reply := IgnoreBotSet(option.value);
      } else {
        reply := Help;
      }
    }

    /** `slowset ignoreusers add` (customcooldown.py:489-522). */
    method AddIgnoreUsers(users: seq<Member>) returns (replies: seq<Reply>)
      modifies this`config
      ensures users == [] ==> config == old(config) && replies == [Help]
      ensures users != [] ==>
        && config == old(config).(ignoreUsers := config.ignoreUsers)
        && |config.ignoreUsers| >= |old(config).ignoreUsers| && config.ignoreUsers[..|old(config).ignoreUsers|] == old(config).ignoreUsers
        && (forall x :: x in config.ignoreUsers <==> x in old(config).ignoreUsers || exists u :: u in users && !u.isBot && u.id == x)
        && (NoDuplicates(old(config).ignoreUsers) ==> NoDuplicates(config.ignoreUsers))
      ensures users != [] ==>
        var (iu, bots, alreadyAdded) := AddUsersSpec(old(config).ignoreUsers, users);
        && config.ignoreUsers == iu
        && replies == (if bots != [] then [BotsRefused(bots)] else [])
                      + (if alreadyAdded != [] then [AlreadyIgnored(alreadyAdded)] else []) + [Ticked]
        && (forall x :: x in bots <==> exists u :: u in users && u.isBot && u.id == x)
        && (forall x :: x in alreadyAdded ==> exists u :: u in users && !u.isBot && u.id == x)
        && (forall u :: u in users && !u.isBot && u.id in old(config).ignoreUsers ==> u.id in alreadyAdded)
    {
      if users == [] {
        return [Help];
      }
      var iu, bots, alreadyAdded := AppendIgnoredUsers(config.ignoreUsers, users);
      config := config.(ignoreUsers := iu);
      replies := (if bots != [] then [BotsRefused(bots)] else [])
        + (if alreadyAdded != [] then [AlreadyIgnored(alreadyAdded)] else []) + [Ticked];
    }

    /** `slowset ignoreusers delete` (customcooldown.py:524-547). */
    method RemoveIgnoreUsers(users: seq<UserId>) returns (replies: seq<Reply>)
      modifies this`config
      ensures users == [] ==> config == old(config) && replies == [Help]
      ensures users != [] ==>
        && config == old(config).(ignoreUsers := config.ignoreUsers)
        && (forall x :: x in config.ignoreUsers ==> x in old(config).ignoreUsers)
        && (NoDuplicates(old(config).ignoreUsers) ==>
              forall x :: x in config.ignoreUsers <==> x in old(config).ignoreUsers && x !in users)
      ensures users != [] ==>
        var (iu, notListed) := RemoveSpec(old(config).ignoreUsers, users);
        && config.ignoreUsers == iu
        && replies == (if notListed != [] then [AlreadyNotIgnored(notListed)] else []) + [Ticked]
        && (forall x :: x in notListed ==> x in users)
        && (forall x :: x in users && x !in old(config).ignoreUsers ==> x in notListed)
    {
      if users == [] {
        return [Help];
      }
      var iu, notListed := RemoveIgnored(config.ignoreUsers, users);
      config := config.(ignoreUsers := iu);
      replies := (if notListed != [] then [AlreadyNotIgnored(notListed)] else []) + [Ticked];
    }

    /** `slowset ignoreroles add` (customcooldown.py:574-597). */
    method AddIgnoreRoles(roles: seq<RoleId>) returns (replies: seq<Reply>)
      modifies this`config
      ensures roles == [] ==> config == old(config) && replies == [Help]
      ensures roles != [] ==>
        && config == old(config).(ignoreRoles := config.ignoreRoles)
        && |config.ignoreRoles| >= |old(config).ignoreRoles| && config.ignoreRoles[..|old(config).ignoreRoles|] == old(config).ignoreRoles
        && (forall x :: x in config.ignoreRoles <==> x in old(config).ignoreRoles || x in roles)
        && (NoDuplicates(old(config).ignoreRoles) ==> NoDuplicates(config.ignoreRoles))
      ensures roles != [] ==>
        var (ir, alreadyAdded) := AddRolesSpec(old(config).ignoreRoles, roles);
        && config.ignoreRoles == ir
        && replies == (if alreadyAdded != [] then [AlreadyIgnored(alreadyAdded)] else []) + [Ticked]
        && (forall x :: x in alreadyAdded ==> x in roles)
        && (forall x :: x in roles && x in old(config).ignoreRoles ==> x in alreadyAdded)
    {
      if roles == [] {
        return [Help];
      }
      var ir, alreadyAdded := AppendIgnoredRoles(config.ignoreRoles, roles);
      config := config.(ignoreRoles := ir);
      replies := (if alreadyAdded != [] then [AlreadyIgnored(alreadyAdded)] else []) + [Ticked];
    }

    /** `slowset ignoreroles delete` (customcooldown.py:599-622). */
    method RemoveIgnoreRoles(roles: seq<RoleId>) returns (replies: seq<Reply>)
      modifies this`config
      ensures roles == [] ==> config == old(config) && replies == [Help]
      ensures roles != [] ==>
        && config == old(config).(ignoreRoles := config.ignoreRoles)
        && (forall x :: x in config.ignoreRoles ==> x in old(config).ignoreRoles)
        && (NoDuplicates(old(config).ignoreRoles) ==>
              forall x :: x in config.ignoreRoles <==> x in old(config).ignoreRoles && x !in roles)
      ensures roles != [] ==>
        var (ir, notListed) := RemoveSpec(old(config).ignoreRoles, roles);
        && config.ignoreRoles == ir
        && replies == (if notListed != [] then [AlreadyNotIgnored(notListed)] else []) + [Ticked]
        && (forall x :: x in notListed ==> x in roles)
        && (forall x :: x in roles && x !in old(config).ignoreRoles ==> x in notListed)
    {
      if roles == [] {
        return [Help];
      }
      var ir, notListed := RemoveIgnored(config.ignoreRoles, roles);
      config := config.(ignoreRoles := ir);
      replies := (if notListed != [] then [AlreadyNotIgnored(notListed)] else []) + [Ticked];
    }

    /** `bypass channel` (customcooldown.py:686-702): forget one member's
        timestamp in one channel. */
    method BypassChannel(member: UserId, channel: ChannelId) returns (reply: Reply)
      modifies this`config
      ensures channel !in old(config).cooldownChannels ==> config == old(config) && reply == BypassNotOnCooldown
      ensures channel in old(config).cooldownChannels && member !in old(config).cooldownChannels[channel].usersOnCooldown ==>
        config == old(config) && reply == BypassUserNotOnCooldown
      ensures channel in old(config).cooldownChannels && member in old(config).cooldownChannels[channel].usersOnCooldown ==>
        var entry := old(config).cooldownChannels[channel];
        && config == old(config).(cooldownChannels := old(config).cooldownChannels[channel := entry.(usersOnCooldown := entry.usersOnCooldown - {member})])
        && reply == BypassDone
    {
      if channel !in config.cooldownChannels {
        return BypassNotOnCooldown;
      }
      var entry := config.cooldownChannels[channel];
      if member !in entry.usersOnCooldown {
        return BypassUserNotOnCooldown;
      }
      entry := entry.(usersOnCooldown := entry.usersOnCooldown - {member});
      config := config.(cooldownChannels := config.cooldownChannels[channel := entry]);
      reply := BypassDone;
    }

    /** `bypass category` (customcooldown.py:704-728). */
    method BypassCategory(member: UserId, category: ChannelId) returns (reply: Reply)
      modifies this`config
      ensures category !in old(config).cooldownCategories ==> config == old(config) && reply == BypassNotOnCooldown
      ensures category in old(config).cooldownCategories && member !in old(config).cooldownCategories[category].usersOnCooldown ==>
        config == old(config) && reply == BypassUserNotOnCooldown
      ensures category in old(config).cooldownCategories && member in old(config).cooldownCategories[category].usersOnCooldown ==>
        var entry := old(config).cooldownCategories[category];
        && config == old(config).(cooldownCategories := old(config).cooldownCategories[category := entry.(usersOnCooldown := entry.usersOnCooldown - {member})])
        && reply == BypassDone
    {
      if category !in config.cooldownCategories {
        return BypassNotOnCooldown;
      }
      var entry := config.cooldownCategories[category];
      if member !in entry.usersOnCooldown {
        return BypassUserNotOnCooldown;
      }
      entry := entry.(usersOnCooldown := entry.usersOnCooldown - {member});
      config := config.(cooldownCategories := config.cooldownCategories[category := entry]);
      reply := BypassDone;
    }

    /** `red_delete_data_for_user` (customcooldown.py:38-48), for this
        guild: the user leaves the ignore list, for every requester but
        `user`. */
    method DeleteDataForUser(requester: Requester, userId: UserId)
      modifies this`config
      ensures requester != User && userId in old(config).ignoreUsers ==>
        config == old(config).(ignoreUsers := RemoveFirst(old(config).ignoreUsers, userId))
      ensures requester == User || userId !in old(config).ignoreUsers ==> config == old(config)
    {
      if requester in {Owner, UserStrict, DiscordDeletedUser} && userId in config.ignoreUsers {
        config := config.(ignoreUsers := RemoveFirst(config.ignoreUsers, userId));
      }
    }
  }
}
