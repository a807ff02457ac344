/** The Captcher plugin's state for one guild (captcher/core.py and
    captcher/captcher.py): its settings, the per-member log-channel cache,
    the steps of a challenge and the configuration commands. */
module Captcher {
  import opened Wrappers
  import opened CaptcherCore

  /** Which setting a configuration command is about. */
  datatype Setting = GiveRoleSetting | TempRoleSetting | VerificationChannelSetting | LogsChannelSetting

  /** What a command answers in the channel. */
  datatype Reply =
    | SettingSet(setting: Setting, id: Id)
    | SettingCleared(setting: Setting)
    | NothingConfigured(setting: Setting)   // the help, then "There's no ... configured"
    | Missing(report: MissingReport)
    | ActiveSet(active: bool)
    | NoTempRole
    | NoChannel
    | ActiveStatus(active: bool)            // the help, then the current state
    | AutoconfigDisabled
    | BotsAreFriends
    | MenuShown
    | Cancelled
    | MethodUnavailable
    | ConfiguredRoleMissing
    | VerificationChannelMissing

  /** The role handling `challengeuser` offers. */
  datatype RolesMethod = All | Configured | NoRemoval

  /** `roles_methods` in `challengeuser` (captcher/captcher.py:227, 241-244). */
  function RolesMethodOf(answer: string): (r: Option<RolesMethod>)
    ensures r.Some? <==> answer == "1" || answer == "2" || answer == "3"
  {
    if answer == "1" then Some(All)
    else if answer == "2" then Some(Configured)
    else if answer == "3" then Some(NoRemoval)
    else None
  }

  /** What taking roles away before a manual challenge comes to: the role
      changes made, whether the configured role was not found, and whether
      the command ended on an exception. */
  datatype Removal = Removal(effects: seq<Effect>, missing: bool, raised: bool)

  /** The role removal in `challengeuser` (captcher/captcher.py:245-258).
      Method 1 keeps the ids of every role but `@everyone`, which raises
      when there is none, then removes them one by one; method 2 removes the
      configured role, where an unset one leaves `role` unbound and one not
      found only earns a notice; every `remove_roles` call is `Forbidden`
      when the bot may not manage roles. */
  function RemovalSpec(choice: RolesMethod, roles: seq<RoleId>, config: GuildConfig, w: World): (r: Removal)
    ensures r.raised ==> r.effects == [] && !r.missing
    ensures r.missing ==> choice == Configured && r.effects == []
    ensures forall e :: e in r.effects ==> e.RoleRemoved?
  {
    match choice
    case All =>
      if |roles| < 2 || !w.canManageRoles then Removal([], false, true)
      else Removal(RemovalsOf(KeptRoles(roles)), false, false)
    case Configured =>
      if config.giverole.None? then Removal([], false, true)
      else if !w.giveRoleResolves then Removal([], true, false)
      else if !w.canManageRoles then Removal([], false, true)
      else Removal([RoleRemoved(config.giverole.value)], false, false)
    case NoRemoval => Removal([], false, false)
  }

  /** The plugin for one guild. */
  class Captcher {
    var config: GuildConfig
    /** `_cache`: the log channel last found for a member. */
    var cache: map<UserId, ChannelId>

    constructor ()
      ensures config == DefaultConfig && cache == map[]
    {
      config := DefaultConfig;
      cache := map[];
    }

    /** `_get_log_channel` (captcher/core.py:212-220). */
    method GetLogChannel(member: UserId, w: World) returns (channel: Option<ChannelId>)
      modifies this`cache
      ensures channel == LogChannel(config, w)
      ensures cache == CacheAfterLog(old(cache), member, channel)
    {
      channel := if config.logsChannel.Some? && w.logsResolves then config.logsChannel else None;
      if channel.None? {
        return;
      }
      cache := cache[member := channel.value];
    }

    /** `_report_log` (captcher/core.py:193-210). */
    method ReportLog(member: UserId, level: string, w: World) returns (effects: seq<Effect>)
      modifies this`cache
      ensures effects == Log(LogChannel(config, w), LevelOf(level))
      ensures cache == CacheAfterLog(old(cache), member, LogChannel(config, w))
    {
      var l := LevelOf(level);
      var channel := GetLogChannel(member, w);
      effects := if channel.Some? then [Logged(channel.value, l)] else [];
    }

    /** `_kicker` (captcher/core.py:222-243). */
    method Kicker(member: UserId, w: World) returns (effects: seq<Effect>)
      modifies this`cache
      ensures effects == KickEffects(config, w, member)
      ensures cache == CacheAfterLog(old(cache), member, LogChannel(config, w))
    {
      if w.canKick {
        effects := ReportLog(member, "failed", w);
        effects := [Kicked(member)] + effects;
      } else {
        effects := ReportLog(member, "error", w);
      }
    }

    /** Muting or unmuting the member in the verification channel, with
        `_mute_or_unmute_user` (captcher/core.py:118-124, 133-139). */
    method EditOverwrites(member: UserId, option: bool, w: World) returns (effects: seq<Effect>)
      modifies this`cache
      ensures effects == EditEffects(config, w, member, option)
      ensures cache == old(cache) || cache == CacheAfterLog(old(cache), member, LogChannel(config, w))
    {
      var perms := MuteOrUnmute(w.overwrites, member, option);
      if w.canEditChannel {
        effects := [ChannelEdited(perms)];
      } else {
        effects := ReportLog(member, "error", w);
      }
    }

    /** `_give_role` (captcher/core.py:169-191). */
    method GiveRole(member: UserId, w: World) returns (given: Given, effects: seq<Effect>)
      modifies this`cache
      ensures (given, effects) == GiveRoleSpec(config, w)
      ensures cache == old(cache) || cache == CacheAfterLog(old(cache), member, LogChannel(config, w))
    {
      var roleData := config.giverole;
      var addRole := if roleData.Some? && w.giveRoleResolves then roleData else None;
      var removeRole := if TempResolves(config, w) then config.tempRole else None;
      effects := [];
      if addRole.None? && roleData.Some? {
        effects := ReportLog(member, "error", w);
      }
      if roleData.Some? {
        if addRole.None? {
          // `add_roles(None)` raises
          return GiveRaised, effects;
        }
        if !w.canManageRoles {
          effects := ReportLog(member, "error", w);
          return Refused, effects;
        }
        effects := [RoleGiven(addRole.value)];
      }
      if removeRole.None? {
        // `remove_roles(None)` raises
        return GiveRaised, effects;
      }
      if !w.canManageRoles {
        effects := ReportLog(member, "error", w);
        return Refused, effects;
      }
      effects := if addRole.Some? then effects + [TempRoleRemoved(removeRole.value)] else [TempRoleRemoved(removeRole.value)];
      if addRole.Some? {
        return Named(addRole.value), effects;
      }
      given := Plain;
    }

    /** `_challenge` with `_predication_result` (captcher/core.py:69-167);
        `code` is the generated code and the answers of Discord are in `w`. */
    method Challenge(member: UserId, code: string, w: World) returns (outcome: Outcome, effects: seq<Effect>)
      modifies this`cache
      ensures (outcome, effects) == ChallengeSpec(config, member, code, w)
      ensures cache == CacheAfterChallenge(old(cache), member, LogChannel(config, w), outcome)
    {
      ghost var logged := CacheAfterLog(cache, member, LogChannel(config, w));
      var e: seq<Effect>;
      if TempRoleAdds(config, w) {
        effects := [TempRoleAdded(member)];
      } else {
        effects := ReportLog(member, "error", w);
      }
      e := ReportLog(member, "started", w);
      effects := effects + e;
      assert cache == logged;
      if !w.canSend {
        e := ReportLog(member, "error", w);
        return NotSent, effects + e;
      }
      effects := effects + [CaptchaSent];
      if w.reply.None? {
        // the timeout DM never goes out, the member is kicked, and reading
        // the unbound reply raises
        e := Kicker(member, w);
        return Raised, effects + e;
      }
      var rest;
      outcome, rest := Verdict(member, w.reply.value == code, w);
      effects := effects + rest;
    }

    /** The part of `_challenge` after the answer was read
        (captcher/core.py:104-139). */
    method Verdict(member: UserId, success: bool, w: World) returns (outcome: Outcome, effects: seq<Effect>)
      modifies this`cache
      ensures (outcome, effects) == VerdictSpec(config, member, success, w)
      ensures outcome.Finished? ==> cache == old(cache) - {member}
      ensures outcome == Raised ==> cache == old(cache) || cache == CacheAfterLog(old(cache), member, LogChannel(config, w))
    {
      ghost var rest := old(cache) - {member};
      var e: seq<Effect>;
      var failed: bool;
      ghost var passed: seq<Effect> := [];
      ghost var muted: seq<Effect> := [];
      if success {
        effects := [PassNotice];
        var given;
        given, e := GiveRole(member, w);
        effects := effects + e;
        if given == GiveRaised {
          assert cache == old(cache) || cache == CacheAfterLog(old(cache), member, LogChannel(config, w));
          return Raised, effects;
        }
        e := ReportLog(member, "completed", w);
        effects := effects + e;
        passed := effects;
        failed := false;
      } else {
        e := EditOverwrites(member, false, w);
        effects := e + [FailNotice];
        muted := e;
        failed := true;
      }
      effects := effects + [CaptchaDeleted];
      if failed {
        e := KickAndUnmute(member, w);
        effects := effects + (e + [ReplyDeleted, FinalDeleted]);
        assert effects == muted + [FailNotice, CaptchaDeleted] + (e + [ReplyDeleted, FinalDeleted]);
      } else {
        effects := effects + [ReplyDeleted, FinalDeleted];
        assert effects == passed + [CaptchaDeleted, ReplyDeleted, FinalDeleted];
      }
      assert cache - {member} == rest;
      if member in cache {
        cache := cache - {member};
      }
      outcome := Finished(!failed);
    }

    /** After a wrong answer and the captcha's deletion
        (captcher/core.py:130-137): the kick, then the unmute; only the
        member's cache entry may change. */
    method KickAndUnmute(member: UserId, w: World) returns (effects: seq<Effect>)
      modifies this`cache
      ensures effects == KickEffects(config, w, member) + EditEffects(config, w, member, true)
      ensures cache - {member} == old(cache) - {member}
    {
      var kick := Kicker(member, w);
      var unmute := EditOverwrites(member, true, w);
      effects := kick + unmute;
    }

    /** `_permissions_checker` (captcher/core.py:245-285): a failed check
        also switches the plugin off. */
    method PermissionsChecker(p: Perms) returns (passed: bool, final: Option<MissingReport>)
      modifies this`config
      ensures passed <==> p.readMessages && p.manageMessages && p.manageRoles
      ensures final.None? <==> passed
      ensures final.Some? ==> (final.value.plural <==> |final.value.lines| > 1)
      ensures config == if passed then old(config) else old(config).(active := false)
    {
      passed, final := InspectPermissions(p);
      if !passed {
        config := config.(active := false);
      }
    }

    /** `setcaptcher giverole` (captcher/captcher.py:25-44). */
    method SetGiveRole(role: Option<RoleId>) returns (reply: Reply)
      modifies this`config
      ensures role.Some? ==> config == old(config).(giverole := role) && reply == SettingSet(GiveRoleSetting, role.value)
      ensures role.None? && old(config).giverole.Some? ==> config == old(config).(giverole := None) && reply == SettingCleared(GiveRoleSetting)
      ensures role.None? && old(config).giverole.None? ==> config == old(config) && reply == NothingConfigured(GiveRoleSetting)
    {
      if role.Some? {
        config := config.(giverole := role);
        reply := SettingSet(GiveRoleSetting, role.value);
      } else if config.giverole.Some? {
        config := config.(giverole := None);
        reply := SettingCleared(GiveRoleSetting);
      } else {
        reply := NothingConfigured(GiveRoleSetting);
      }
    }

    /** `setcaptcher temprole` (captcher/captcher.py:46-68). */
    method SetTempRole(role: Option<RoleId>) returns (reply: Reply)
      modifies this`config
      ensures role.Some? ==> config == old(config).(tempRole := role) && reply == SettingSet(TempRoleSetting, role.value)
      ensures role.None? && old(config).tempRole.Some? ==> config == old(config).(tempRole := None) && reply == SettingCleared(TempRoleSetting)
      ensures role.None? && old(config).tempRole.None? ==> config == old(config) && reply == NothingConfigured(TempRoleSetting)
    {
      if role.Some? {
        config := config.(tempRole := role);
        reply := SettingSet(TempRoleSetting, role.value);
      } else if config.tempRole.Some? {
        config := config.(tempRole := None);
        reply := SettingCleared(TempRoleSetting);
      } else {
        reply := NothingConfigured(TempRoleSetting);
      }
    }

    /** `setcaptcher verificationchannel` (captcher/captcher.py:70-95): the
        channel is stored only when the bot's permissions there pass, and a
        failed check switches the plugin off. */
    method SetVerificationChannel(channel: Option<ChannelId>, p: Perms) returns (reply: Reply)
      modifies this`config
      ensures var ok := p.readMessages && p.manageMessages && p.manageRoles;
        && (channel.Some? && ok ==> config == old(config).(verificationChannel := channel) && reply == SettingSet(VerificationChannelSetting, channel.value))
        && (channel.Some? && !ok ==> config == old(config).(active := false) && reply.Missing?)
        && (channel.None? && old(config).verificationChannel.Some? ==>
              config == old(config).(verificationChannel := None) && reply == SettingCleared(VerificationChannelSetting))
        && (channel.None? && old(config).verificationChannel.None? ==> config == old(config) && reply == NothingConfigured(VerificationChannelSetting))
    {
      if channel.Some? {
        var result, answer := PermissionsChecker(p);
        if result {
          config := config.(verificationChannel := channel);
          reply := SettingSet(VerificationChannelSetting, channel.value);
        } else {
          reply := Missing(answer.value);
        }
      } else if config.verificationChannel.Some? {
        config := config.(verificationChannel := None);
        reply := SettingCleared(VerificationChannelSetting);
      } else {
        reply := NothingConfigured(VerificationChannelSetting);
      }
    }

    /** `setcaptcher logschannel` (captcher/captcher.py:97-120). */
    method SetLogsChannel(channel: Option<ChannelId>, p: Perms) returns (reply: Reply)
      modifies this`config
      ensures var ok := p.readMessages && p.manageMessages && p.manageRoles;
        && (channel.Some? && ok ==> config == old(config).(logsChannel := channel) && reply == SettingSet(LogsChannelSetting, channel.value))
        && (channel.Some? && !ok ==> config == old(config).(active := false) && reply.Missing?)
        && (channel.None? && old(config).logsChannel.Some? ==>
              config == old(config).(logsChannel := None) && reply == SettingCleared(LogsChannelSetting))
        && (channel.None? && old(config).logsChannel.None? ==> config == old(config) && reply == NothingConfigured(LogsChannelSetting))
    {
      if channel.Some? {
        var result, answer := PermissionsChecker(p);
        if result {
          config := config.(logsChannel := channel);
          reply := SettingSet(LogsChannelSetting, channel.value);
        } else {
          reply := Missing(answer.value);
        }
      } else if config.logsChannel.Some? {
        config := config.(logsChannel := None);
        reply := SettingCleared(LogsChannelSetting);
      } else {
        reply := NothingConfigured(LogsChannelSetting);
      }
    }

    /** `setcaptcher activate` (captcher/captcher.py:122-154): `active`
        takes the requested value only when the verification channel
        resolves, the bot's permissions there pass and a temporary role is
        set; a stored channel that no longer resolves is forgotten. */
    method Activate(option: Option<bool>, p: Perms, w: World) returns (reply: Reply)
      modifies this`config
      ensures var ok := p.readMessages && p.manageMessages && p.manageRoles;
        var resolves := old(config).verificationChannel.Some? && w.verificationResolves;
        && (option.None? ==> config == old(config) && reply == ActiveStatus(old(config).active))
        && (option.Some? && resolves && ok && old(config).tempRole.Some? ==>
              config == old(config).(active := option.value) && reply == ActiveSet(option.value))
        && (option.Some? && resolves && ok && old(config).tempRole.None? ==> config == old(config) && reply == NoTempRole)
        && (option.Some? && resolves && !ok ==> config == old(config).(active := false) && reply.Missing?)
        && (option.Some? && !resolves ==> config == old(config).(verificationChannel := None) && reply == NoChannel)
    {
      if option.None? {
        return ActiveStatus(config.active);
      }
      var channelId := config.verificationChannel;
      var fetched := channelId.Some? && w.verificationResolves;
      if fetched {
        var result, answer := PermissionsChecker(p);
        if result {
          if config.tempRole.Some? {
            config := config.(active := option.value);
            reply := ActiveSet(option.value);
          } else {
            reply := NoTempRole;
          }
        } else {
          reply := Missing(answer.value);
        }
      } else {
        reply := NoChannel;
        if channelId.Some? {
          config := config.(verificationChannel := None);
        }
      }
    }

    /** `setcaptcher autoconfig` (captcher/captcher.py:156-160): it answers
        and returns before doing anything else. */
    method Autoconfig() returns (reply: Reply)
      modifies this
      ensures config == old(config) && cache == old(cache)
      ensures reply == AutoconfigDisabled
    {
      reply := AutoconfigDisabled;
    }

    /** `on_member_join` (captcher/captcher.py:196-218): a challenge starts
        only for a human joining a guild where the plugin is active and the
        verification channel is set and resolves. */
    method OnMemberJoin(member: UserId, isBot: bool, code: string, w: World) returns (outcome: Option<Outcome>, effects: seq<Effect>)
      modifies this`cache
      ensures var starts := !isBot && config.active && config.verificationChannel.Some? && w.verificationResolves;
        && (!starts ==> outcome.None? && effects == [] && cache == old(cache))
        && (starts ==> outcome.Some? && (outcome.value, effects) == ChallengeSpec(config, member, code, w)
                       && cache == CacheAfterChallenge(old(cache), member, LogChannel(config, w), outcome.value))
    {
      if isBot || !config.active {
        return None, [];
      }
      var guildChannel := config.verificationChannel;
      if guildChannel.None? {
        return None, [];
      }
      if !w.verificationResolves {
        return None, [];
      }
      var o;
      o, effects := Challenge(member, code, w);
      outcome := Some(o);
    }

    /** The roles taken away before a manual challenge
        (captcher/captcher.py:245-258), with `kept` the ids method 1 keeps
        to give back. */
    method RemoveRoles(choice: RolesMethod, roles: seq<RoleId>, w: World)
      returns (kept: seq<RoleId>, effects: seq<Effect>, missing: bool, raised: bool)
      ensures Removal(effects, missing, raised) == RemovalSpec(choice, roles, config, w)
      ensures kept == if choice == All && !raised then KeptRoles(roles) else []
      ensures choice == All ==> (raised <==> |roles| < 2 || !w.canManageRoles) && !missing
      ensures choice == All && !raised ==>
        && kept != [] && (forall x :: x in kept <==> x in roles[1..])
        && (forall e: Effect :: e in effects <==> e.RoleRemoved? && e.role in roles[1..])
      ensures choice == Configured ==>
        && kept == []
        && (raised <==> config.giverole.None? || (w.giveRoleResolves && !w.canManageRoles))
        && (missing <==> config.giverole.Some? && !w.giveRoleResolves)
      ensures choice == NoRemoval ==> kept == [] && effects == [] && !missing && !raised
    {
      kept, effects, missing, raised := [], [], false, false;
      if choice == All {
        var keeper := RoleKeeper(roles);
        if keeper.Err? {
          // `lister` is never bound
          return [], [], false, true;
        }
        effects, raised := RolesRemover(roles, w.canManageRoles);
        if !raised {
          kept := keeper.value;
        }
      } else if choice == Configured {
        var roleConf := config.giverole;
        if roleConf.None? {
          // `role` is never bound
          return [], [], false, true;
        }
        if w.giveRoleResolves {
          if !w.canManageRoles {
            // `Forbidden` from `remove_roles`
            return [], [], false, true;
          }
          effects := [RoleRemoved(roleConf.value)];
        } else {
          missing := true;
        }
      }
    }

    /** `challengeuser` (captcher/captcher.py:220-272). `answer` is the
        owner's reply to the menu, `None` on timeout; `roles` are the
        member's roles with `@everyone` first. `raised` tells that the
        command ended on an exception: in the role removal, in the
        challenge, or when method 1 passes the kept ids, plain integers, to
        `_add_role`, whose first `add_roles` call then fails on `role.id`,
        so the roles taken away are never given back. */
    method ChallengeUser(user: UserId, isBot: bool, roles: seq<RoleId>, answer: Option<string>, code: string, w: World)
      returns (replies: seq<Reply>, outcome: Option<Outcome>, effects: seq<Effect>, raised: bool)
      modifies this`cache
      ensures isBot ==> replies == [BotsAreFriends] && outcome.None? && effects == [] && !raised && cache == old(cache)
      ensures !isBot && (answer.None? || RolesMethodOf(answer.value).None?) ==>
        outcome.None? && effects == [] && !raised && cache == old(cache)
        && replies == [MenuShown, if answer.None? then Cancelled else MethodUnavailable]
      ensures !isBot && answer.Some? && RolesMethodOf(answer.value).Some? ==>
        var choice := RolesMethodOf(answer.value).value;
        var removal := RemovalSpec(choice, roles, config, w);
        var notice := [MenuShown] + (if removal.missing then [ConfiguredRoleMissing] else []);
        var reaches := config.verificationChannel.Some? && w.verificationResolves;
        var challenge := ChallengeSpec(config, user, code, w);
        && (removal.raised ==>
              replies == [MenuShown] && outcome.None? && effects == [] && raised && cache == old(cache))
        && (!removal.raised && !reaches ==>
              && replies == notice + [VerificationChannelMissing] && outcome.None?
              && effects == removal.effects && !raised && cache == old(cache))
        && (!removal.raised && reaches ==>
              && replies == notice && outcome == Some(challenge.0)
              && effects == removal.effects + challenge.1
              && cache == CacheAfterChallenge(old(cache), user, LogChannel(config, w), challenge.0)
              && (raised <==> challenge.0 == Raised || (choice == All && challenge.0 == Finished(true))))
      ensures forall r :: RoleAdded(r) !in effects
    {
      raised := false;
      outcome := None;
      effects := [];
      if isBot {
        return [BotsAreFriends], None, [], false;
      }
      replies := [MenuShown];
      if answer.None? {
        return replies + [Cancelled], None, [], false;
      }
      var choice := RolesMethodOf(answer.value);
      if choice.None? {
        return replies + [MethodUnavailable], None, [], false;
      }
      var kept, removed, missing, failed := RemoveRoles(choice.value, roles, w);
      if failed {
        return replies, None, [], true;
      }
      effects := removed;
      if missing {
        replies := replies + [ConfiguredRoleMissing];
      }
      if config.verificationChannel.None? || !w.verificationResolves {
        return replies + [VerificationChannelMissing], None, effects, false;
      }
      var captched, e := Challenge(user, code, w);
      ChallengeAddsNoRole(config, user, code, w);
      effects := effects + e;
      outcome := Some(captched);
      if captched == Raised {
        raised := true;
        return;
      }
      if choice.value == All && captched == Finished(true) && kept != [] {
        var added, addRaised := AddRole(BareIds(kept), w.canManageRoles);
        assert AddFails(BareIds(kept)[0], w.canManageRoles);
        assert added == [];
        effects := effects + added;
        raised := addRaised;
      }
    }
  }

  /** A challenge never adds roles back: that is left to `challengeuser`. */
  lemma ChallengeAddsNoRole(config: GuildConfig, member: UserId, code: string, w: World)
    ensures forall e :: e in ChallengeSpec(config, member, code, w).1 ==> !e.RoleAdded?
  {
    if w.canSend && w.reply.Some? {
      VerdictAddsNoRole(config, member, w.reply.value == code, w);
    }
  }

  /** Nor does the verdict on the answer. */
  lemma VerdictAddsNoRole(config: GuildConfig, member: UserId, passed: bool, w: World)
    ensures forall e :: e in VerdictSpec(config, member, passed, w).1 ==> !e.RoleAdded?
  {
    GiveRoleOutcomes(config, w);
  }
}
